/** The effect of the generated `updateUserQuery` statement, from
    packages/server/postgres/queries/generated/updateUserQuery.ts: an
    `UPDATE "User" SET ... WHERE id IN :ids` over the user table.

    Every column is nullable here (`None` is SQL NULL), so the model holds
    whatever the table's schema says about NULLs. `lastSeenAt` is a
    timestamp in milliseconds; `identities` is the JSON document, compared
    as a whole. */
module UpdateUser {
  import opened Wrappers

  datatype Tier = Enterprise | Personal | Pro

  /** A JSON document, as its text. */
  type Json = string

  /** A row of `"User"`. `otherColumns` stands for every column the SET
      clause does not list, by name. */
  datatype User = User(
    id: string,
    email: Option<string>,
    inactive: Option<bool>,
    lastSeenAt: Option<int>,
    preferredName: Option<string>,
    tier: Option<Tier>,
    picture: Option<string>,
    segmentId: Option<string>,
    isRemoved: Option<bool>,
    isWatched: Option<bool>,
    reasonRemoved: Option<string>,
    newFeatureId: Option<string>,
    identities: Option<Json>,
    overLimitCopy: Option<string>,
    otherColumns: map<string, string>)

  /** `IUpdateUserQueryParams`; a `None` value parameter is NULL. */
  datatype UpdateUserParams = UpdateUserParams(
    ids: seq<Option<string>>,
    email: Option<string>,
    inactive: Option<bool>,
    lastSeenAt: Option<int>,
    preferredName: Option<string>,
    tier: Option<Tier>,
    picture: Option<string>,
    segmentId: Option<string>,
    isRemoved: Option<bool>,
    isWatched: Option<bool>,
    reasonRemoved: Option<string>,
    newFeatureId: Option<string>,
    identities: Option<Json>,
    overLimitCopy: Option<string>)

  /** SQL `COALESCE(param, column)`. */
  function Coalesce<T>(param: Option<T>, column: Option<T>): Option<T>
  {
    if param.Some? then param else column
  }

  /** SQL `GREATEST(a, b)`, which ignores NULL arguments. */
  function Greatest(a: Option<int>, b: Option<int>): (g: Option<int>)
    ensures g.None? <==> a.None? && b.None?
    ensures a.Some? ==> g.Some? && g.value >= a.value
    ensures b.Some? ==> g.Some? && g.value >= b.value
    ensures g == a || g == b
  {
    if a.None? then b
    else if b.None? then a
    else if a.value >= b.value then a else b
  }

  /** A column after `COALESCE`: the parameter when it is not NULL, the old
      value otherwise. */
  predicate CoalescedFrom<T(==)>(after: Option<T>, param: Option<T>, before: Option<T>)
  {
    if param.Some? then after == param else after == before
  }

  /** The SET clause applied to one row. */
  function SetColumns(u: User, p: UpdateUserParams): (v: User)
    ensures v.id == u.id && v.otherColumns == u.otherColumns
    ensures CoalescedFrom(v.email, p.email, u.email)
    ensures CoalescedFrom(v.inactive, p.inactive, u.inactive)
    ensures CoalescedFrom(v.preferredName, p.preferredName, u.preferredName)
    ensures CoalescedFrom(v.tier, p.tier, u.tier)
    ensures CoalescedFrom(v.picture, p.picture, u.picture)
    ensures CoalescedFrom(v.segmentId, p.segmentId, u.segmentId)
    ensures CoalescedFrom(v.isRemoved, p.isRemoved, u.isRemoved)
    ensures CoalescedFrom(v.isWatched, p.isWatched, u.isWatched)
    ensures CoalescedFrom(v.reasonRemoved, p.reasonRemoved, u.reasonRemoved)
    ensures CoalescedFrom(v.newFeatureId, p.newFeatureId, u.newFeatureId)
    ensures CoalescedFrom(v.identities, p.identities, u.identities)
    ensures CoalescedFrom(v.overLimitCopy, p.overLimitCopy, u.overLimitCopy)
    ensures u.lastSeenAt.Some? ==> v.lastSeenAt.Some? && v.lastSeenAt.value >= u.lastSeenAt.value
    ensures p.lastSeenAt.Some? ==> v.lastSeenAt.Some? && v.lastSeenAt.value >= p.lastSeenAt.value
    ensures v.lastSeenAt == u.lastSeenAt || v.lastSeenAt == p.lastSeenAt
  {
    u.(
      email := Coalesce(p.email, u.email),
      inactive := Coalesce(p.inactive, u.inactive),
      lastSeenAt := Greatest(u.lastSeenAt, Coalesce(p.lastSeenAt, u.lastSeenAt)),
      preferredName := Coalesce(p.preferredName, u.preferredName),
      tier := Coalesce(p.tier, u.tier),
      picture := Coalesce(p.picture, u.picture),
      segmentId := Coalesce(p.segmentId, u.segmentId),
      isRemoved := Coalesce(p.isRemoved, u.isRemoved),
      isWatched := Coalesce(p.isWatched, u.isWatched),
      reasonRemoved := Coalesce(p.reasonRemoved, u.reasonRemoved),
      newFeatureId := Coalesce(p.newFeatureId, u.newFeatureId),
      identities := Coalesce(p.identities, u.identities),
      overLimitCopy := Coalesce(p.overLimitCopy, u.overLimitCopy))
  }

  /** `WHERE id IN :ids`: a NULL in the list matches no row. */
  predicate Selected(id: string, ids: seq<Option<string>>)
  {
    Some(id) in ids
  }

  /** The table keyed by `id`, each row stored under its own id. */
  ghost predicate KeyedById(rows: map<string, User>)
  {
    forall id :: id in rows ==> rows[id].id == id
  }

  /** The whole statement: selected rows get the SET clause, the others are
      left as they are, and no row is added or removed. */
  function UpdatedRows(rows: map<string, User>, p: UpdateUserParams): (t: map<string, User>)
    ensures t.Keys == rows.Keys
    ensures forall id :: id in rows && !Selected(id, p.ids) ==> t[id] == rows[id]
    ensures forall id :: id in rows && Selected(id, p.ids) ==> t[id] == SetColumns(rows[id], p)
    ensures KeyedById(rows) ==> KeyedById(t)
  {
    map id | id in rows :: if Selected(id, p.ids) then SetColumns(rows[id], p) else rows[id]
  }

  /** Parameters whose every value is NULL. */
  predicate AllValuesNull(p: UpdateUserParams)
  {
    && p.email.None? && p.inactive.None? && p.lastSeenAt.None? && p.preferredName.None?
    && p.tier.None? && p.picture.None? && p.segmentId.None? && p.isRemoved.None?
    && p.isWatched.None? && p.reasonRemoved.None? && p.newFeatureId.None?
    && p.identities.None? && p.overLimitCopy.None?
  }

  /** With every value parameter NULL, the statement changes nothing. */
  lemma AllNullIsIdentity(rows: map<string, User>, p: UpdateUserParams)
    requires AllValuesNull(p)
    ensures UpdatedRows(rows, p) == rows
  {
  }

  /** Running the statement twice with the same parameters leaves the same
      table as running it once. */
  lemma UpdateIsIdempotent(rows: map<string, User>, p: UpdateUserParams)
    ensures UpdatedRows(UpdatedRows(rows, p), p) == UpdatedRows(rows, p)
  {
  }

  /** No row's `lastSeenAt` moves back in time. */
  lemma LastSeenNeverDecreases(rows: map<string, User>, p: UpdateUserParams, id: string)
    requires id in rows && rows[id].lastSeenAt.Some?
    ensures UpdatedRows(rows, p)[id].lastSeenAt.Some?
    ensures UpdatedRows(rows, p)[id].lastSeenAt.value >= rows[id].lastSeenAt.value
  {
  }

  /** The `"User"` table, updated in place. */
  class UserTable {
    var rows: map<string, User>

    ghost predicate Valid()
      reads this
    {
      KeyedById(rows)
    }

    constructor (rows: map<string, User>)
      requires KeyedById(rows)
      ensures Valid() && this.rows == rows
    {
      this.rows := rows;
    }

    /** `updateUserQuery`. */
    method UpdateUserQuery(p: UpdateUserParams)
      requires Valid()
      modifies this
      ensures Valid()
      ensures rows == UpdatedRows(old(rows), p)
      ensures rows.Keys == old(rows).Keys
      ensures forall id :: id in rows && !Selected(id, p.ids) ==> rows[id] == old(rows)[id]
    {
      rows := map id | id in rows :: if Selected(id, p.ids) then SetColumns(rows[id], p) else rows[id];
    }
  }
}
