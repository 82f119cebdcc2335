/** The organization-settings reducer, from
    src/universal/modules/userDashboard/ducks/orgSettingsDuck.js.

    Values the source leaves `undefined` are `None`. An action always has a
    `type` here: the source's default action `{}` has none and fails at
    `startsWith`, so the model's `Action` cannot be built without one. */
module OrgSettings {
  import opened Wrappers

  const NAMESPACE: string := "orgSettings/"
  const TOGGLE_REMOVE_BILLING_LEADER: string := "orgSettings/TOGGLE_REMOVE_BILLING_LEADER"
  const TOGGLE_LEAVE_ORG: string := "orgSettings/TOGGLE_LEAVE_ORG"
  const TOGGLE_PAYMENT_MODAL: string := "orgSettings/TOGGLE_PAYMENT_MODAL"

  datatype OrgSettingsState = OrgSettingsState(
    removeBillingLeaderModal: bool,
    leaveOrgModal: bool,
    paymentModal: bool,
    openModal: string,
    userId: Option<string>,
    preferredName: Option<string>)

  /** The fields of an action's `payload`; either may be missing. */
  datatype Payload = Payload(userId: Option<string>, preferredName: Option<string>)

  datatype Action = Action(actionType: string, payload: Option<Payload>)

  const INITIAL_STATE: OrgSettingsState :=
    OrgSettingsState(false, false, true, "", None, None)

  predicate IsToggle(t: string)
  {
    t == TOGGLE_REMOVE_BILLING_LEADER || t == TOGGLE_LEAVE_ORG || t == TOGGLE_PAYMENT_MODAL
  }

  /** `openModal` after a toggle of type `t`: closed if `t` was open, else `t`. */
  function Toggled(openModal: string, t: string): string
  {
    if openModal == t then "" else t
  }

  /** The state the reducer starts from: Redux passes `undefined` on the
      first call, which the source replaces by `initialState`. */
  function StartState(state: Option<OrgSettingsState>): OrgSettingsState
  {
    if state.Some? then state.value else INITIAL_STATE
  }

  /** `reducer`; `state` is `None` when Redux passes `undefined`. */
  function Reducer(state: Option<OrgSettingsState>, action: Action): (r: OrgSettingsState)
    ensures !IsToggle(action.actionType) ==> r == StartState(state)
    ensures var s := StartState(state);
      && r.removeBillingLeaderModal == s.removeBillingLeaderModal
      && r.leaveOrgModal == s.leaveOrgModal
      && r.paymentModal == s.paymentModal
    ensures IsToggle(action.actionType) ==>
      r.openModal == (if StartState(state).openModal == action.actionType then "" else action.actionType)
    ensures var s := StartState(state);
      var payload := if action.payload.Some? then action.payload.value else Payload(None, None);
      && r.userId == (if action.actionType == TOGGLE_REMOVE_BILLING_LEADER || action.actionType == TOGGLE_LEAVE_ORG
                      then payload.userId else s.userId)
      && r.preferredName == (if action.actionType == TOGGLE_REMOVE_BILLING_LEADER
                             then payload.preferredName else s.preferredName)
  {
    var s := StartState(state);
    if !(NAMESPACE <= action.actionType) then s
    else
      var t := action.actionType;
      var payload := if action.payload.Some? then action.payload.value else Payload(None, None);
      if t == TOGGLE_REMOVE_BILLING_LEADER then
        s.(openModal := Toggled(s.openModal, t), userId := payload.userId, preferredName := payload.preferredName)
      else if t == TOGGLE_LEAVE_ORG then
        s.(openModal := Toggled(s.openModal, t), userId := payload.userId)
      else if t == TOGGLE_PAYMENT_MODAL then
        s.(openModal := Toggled(s.openModal, t))
      else
        s
  }

  /** `toggleRemoveModal(userId, preferredName)`. */
  function ToggleRemoveModal(userId: Option<string>, preferredName: Option<string>): (a: Action)
    ensures a.actionType == TOGGLE_REMOVE_BILLING_LEADER
    ensures a.payload == Some(Payload(userId, preferredName))
  {
    Action(TOGGLE_REMOVE_BILLING_LEADER, Some(Payload(userId, preferredName)))
  }

  /** `toggleLeaveModal(userId)`: its payload has no `preferredName`. */
  function ToggleLeaveModal(userId: Option<string>): (a: Action)
    ensures a.actionType == TOGGLE_LEAVE_ORG
    ensures a.payload == Some(Payload(userId, None))
  {
    Action(TOGGLE_LEAVE_ORG, Some(Payload(userId, None)))
  }

  /** `togglePaymentModal()`: no payload at all. */
  function TogglePaymentModal(): (a: Action)
    ensures a.actionType == TOGGLE_PAYMENT_MODAL && a.payload == None
  {
    Action(TOGGLE_PAYMENT_MODAL, None)
  }

  /** Opening the remove-billing-leader modal records whom it is about; a
      second toggle closes it again. */
  lemma RemoveModalOpensThenCloses(s: OrgSettingsState, userId: Option<string>, preferredName: Option<string>)
    requires s.openModal == ""
    ensures var shown := Reducer(Some(s), ToggleRemoveModal(userId, preferredName));
      && shown == s.(openModal := TOGGLE_REMOVE_BILLING_LEADER, userId := userId, preferredName := preferredName)
      && Reducer(Some(shown), ToggleRemoveModal(userId, preferredName)) == s.(userId := userId, preferredName := preferredName)
  {
  }

  /** Toggling the leave-organization modal writes only `userId`. */
  lemma LeaveModalWritesOnlyUserId(s: OrgSettingsState, userId: Option<string>)
    ensures Reducer(Some(s), ToggleLeaveModal(userId))
         == s.(openModal := Toggled(s.openModal, TOGGLE_LEAVE_ORG), userId := userId)
  {
  }

  /** Toggling the payment modal writes neither `userId` nor `preferredName`. */
  lemma PaymentModalWritesNoUser(s: OrgSettingsState)
    ensures Reducer(Some(s), TogglePaymentModal()) == s.(openModal := Toggled(s.openModal, TOGGLE_PAYMENT_MODAL))
  {
  }

  /** The same toggle applied twice restores `openModal`. */
  lemma ToggleTwiceRestoresOpenModal(s: OrgSettingsState, a: Action)
    requires IsToggle(a.actionType)
    requires s.openModal == "" || s.openModal == a.actionType
    ensures Reducer(Some(Reducer(Some(s), a)), a).openModal == s.openModal
  {
  }

  /** A store's state after it has reduced `actions` in order. */
  function ReduceAll(state: Option<OrgSettingsState>, actions: seq<Action>): OrgSettingsState
    decreases |actions|
  {
    if actions == [] then StartState(state)
    else
      ReduceAll(Some(Reducer(state, actions[0])), actions[1..])
  }

  /** `openModal` is empty or names one of the three toggles. */
  predicate ValidOpenModal(s: OrgSettingsState)
  {
    s.openModal == "" || IsToggle(s.openModal)
  }

  /** From the initial state, any sequence of actions keeps `openModal`
      closed or naming one toggle, and never touches the three modal flags. */
  lemma {:induction false} ReduceAllKeepsInvariant(state: Option<OrgSettingsState>, actions: seq<Action>)
    requires state.None? || ValidOpenModal(state.value)
    ensures ValidOpenModal(ReduceAll(state, actions))
    ensures var s := StartState(state);
      var r := ReduceAll(state, actions);
      r.removeBillingLeaderModal == s.removeBillingLeaderModal
        && r.leaveOrgModal == s.leaveOrgModal && r.paymentModal == s.paymentModal
    decreases |actions|
  {
    if actions != [] {
      ReduceAllKeepsInvariant(Some(Reducer(state, actions[0])), actions[1..]);
    }
  }
}
