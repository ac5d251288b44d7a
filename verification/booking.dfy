/** The booking screen: a three-step wizard (services, barber, confirm), the guards on its
    buttons, and the queue request its submit button sends. */
module Booking {
  import opened Types
  import opened Seqs
  import Selection
  import Duration

  datatype Step = ServicesStep | BarberStep | ConfirmStep

  /** The screen's local state. `pending` is the mutation's `isPending` flag. */
  datatype Wizard = Wizard(
    step: Step,
    selected: seq<int>,
    barber: Option<int>,
    clientName: string,
    clientPhone: string,
    pending: bool)

  /** The state the screen mounts with. */
  function Start(): (r: Wizard)
    ensures r.step == ServicesStep && r.selected == [] && r.barber.None?
    ensures r.clientName == "" && r.clientPhone == "" && !r.pending
  {
    Wizard(ServicesStep, [], None, "", "", false)
  }

  /** The body of `POST /queue`. */
  datatype QueueRequest = QueueRequest(clientName: string, clientPhone: string, barberId: int, serviceId: int)

  /** What a transition causes outside the screen's own state. */
  datatype Effect = NoEffect | Post(request: QueueRequest) | Navigate(queueId: int) | Alert

  /** How the queue request ended: the created entry's id, or an error. */
  datatype Reply = Created(queueId: int) | Failed

  /** The controls of the screen, plus the arrival of the queue request's reply. */
  datatype Action =
    | ToggleService(id: int)
    | ConfirmServices
    | BackToServices
    | ChooseBarber(user: User)
    | ConfirmBarber
    | BackToBarber
    | EditName(name: string)
    | EditPhone(phone: string)
    | Submit
    | Settle(reply: Reply)

  datatype Transition = Transition(next: Wizard, effect: Effect)

  /** `a` and `b` hold the same selection, barber, name, phone and pending flag. */
  predicate SameEntries(a: Wizard, b: Wizard) {
    && a.selected == b.selected
    && a.barber == b.barber
    && a.clientName == b.clientName
    && a.clientPhone == b.clientPhone
    && a.pending == b.pending
  }

  // Each control below yields None when the screen does not show it or shows it disabled.

  /** A click on a service card; the cards are shown on the services step only. */
  function PickService(w: Wizard, id: int): (r: Option<Wizard>)
    ensures r.Some? <==> w.step == ServicesStep
    ensures r.Some? ==> r.value.(selected := w.selected) == w
    ensures r.Some? ==> (id in r.value.selected <==> id !in w.selected)
    ensures r.Some? ==> r.value.selected == Selection.Toggle(w.selected, id)
  {
    if w.step == ServicesStep then Some(w.(selected := Selection.Toggle(w.selected, id))) else None
  }

  /** "confirmar": disabled while no service is selected. */
  function GoToBarber(w: Wizard): (r: Option<Wizard>)
    ensures r.Some? <==> w.step == ServicesStep && |w.selected| != 0
    ensures r.Some? ==> r.value.step == BarberStep && SameEntries(w, r.value)
  {
    if w.step == ServicesStep && |w.selected| != 0 then Some(w.(step := BarberStep)) else None
  }

  /** "Voltar" on the barber step: always enabled. */
  function GoBackToServices(w: Wizard): (r: Option<Wizard>)
    ensures r.Some? <==> w.step == BarberStep
    ensures r.Some? ==> r.value.step == ServicesStep && SameEntries(w, r.value)
  {
    if w.step == BarberStep then Some(w.(step := ServicesStep)) else None
  }

  /** A click on a barber card: the clicked barber replaces any earlier choice. */
  function PickBarber(w: Wizard, user: User): (r: Option<Wizard>)
    ensures r.Some? <==> w.step == BarberStep
    ensures r.Some? ==> r.value.barber == Some(user.id) && r.value.(barber := w.barber) == w
  {
    if w.step == BarberStep then Some(w.(barber := Some(user.id))) else None
  }

  /** "Confirmar Barbeiro": disabled while the chosen barber id is falsy, so id 0 counts as no choice. */
  function GoToConfirm(w: Wizard): (r: Option<Wizard>)
    ensures r.Some? <==> w.step == BarberStep && w.barber.Some? && w.barber.value != 0
    ensures r.Some? ==> r.value.step == ConfirmStep && SameEntries(w, r.value)
  {
    if w.step == BarberStep && Truthy(w.barber) then Some(w.(step := ConfirmStep)) else None
  }

  /** "Voltar" on the confirm step: always enabled. */
  function GoBackToBarber(w: Wizard): (r: Option<Wizard>)
    ensures r.Some? <==> w.step == ConfirmStep
    ensures r.Some? ==> r.value.step == BarberStep && SameEntries(w, r.value)
  {
    if w.step == ConfirmStep then Some(w.(step := BarberStep)) else None
  }

  /** Typing in the name field, shown on the confirm step. */
  function SetName(w: Wizard, name: string): (r: Option<Wizard>)
    ensures r.Some? <==> w.step == ConfirmStep
    ensures r.Some? ==> r.value.clientName == name && r.value.(clientName := w.clientName) == w
  {
    if w.step == ConfirmStep then Some(w.(clientName := name)) else None
  }

  /** Typing in the phone field, shown on the confirm step. */
  function SetPhone(w: Wizard, phone: string): (r: Option<Wizard>)
    ensures r.Some? <==> w.step == ConfirmStep
    ensures r.Some? ==> r.value.clientPhone == phone && r.value.(clientPhone := w.clientPhone) == w
  {
    if w.step == ConfirmStep then Some(w.(clientPhone := phone)) else None
  }

  /** The mutation function's guard and payload: nothing is sent without a selected service
      and a truthy barber id; otherwise only the first selected service is sent. */
  function Request(w: Wizard): (r: Option<QueueRequest>)
    ensures r.Some? <==> |w.selected| != 0 && w.barber.Some? && w.barber.value != 0
    ensures r.Some? ==>
      && r.value.serviceId == w.selected[0]
      && w.barber == Some(r.value.barberId)
      && r.value.clientName == w.clientName
      && r.value.clientPhone == w.clientPhone
  {
    if |w.selected| == 0 || !Truthy(w.barber) then None
    else Some(QueueRequest(w.clientName, w.clientPhone, w.barber.value, w.selected[0]))
  }

  /** "Entrar na Fila": enabled when name and phone are non-empty and no request is pending.
      The click marks the request pending and sends the payload built from the current state. */
  function SubmitClick(w: Wizard): (r: Option<Transition>)
    ensures r.Some? <==> w.step == ConfirmStep && w.clientName != "" && w.clientPhone != "" && !w.pending
    ensures r.Some? ==> r.value.next.pending && r.value.next.(pending := w.pending) == w
    ensures r.Some? ==> (r.value.effect.Post? <==> Request(w).Some?)
    ensures r.Some? && r.value.effect.Post? ==> Some(r.value.effect.request) == Request(w)
    ensures r.Some? && !r.value.effect.Post? ==> r.value.effect == NoEffect
  {
    if w.step == ConfirmStep && w.clientName != "" && w.clientPhone != "" && !w.pending then
      var effect := match Request(w) case Some(q) => Post(q) case None => NoEffect;
      Some(Transition(w.(pending := true), effect))
    else None
  }

  /** The reply to the pending request: on success the screen goes to the status page of the
      created entry; on failure it alerts and keeps every entry for a retry. */
  function Resolve(w: Wizard, reply: Reply): (r: Option<Transition>)
    ensures r.Some? <==> w.pending
    ensures r.Some? ==> !r.value.next.pending && r.value.next.(pending := true) == w
    ensures r.Some? && reply.Created? ==> r.value.effect == Navigate(reply.queueId)
    ensures r.Some? && reply.Failed? ==> r.value.effect == Alert
  {
    if !w.pending then None
    else match reply
      case Created(id) => Some(Transition(w.(pending := false), Navigate(id)))
      case Failed => Some(Transition(w.(pending := false), Alert))
  }

  /** Wraps a state-only change as a transition with no outside effect. */
  function Quiet(r: Option<Wizard>): Option<Transition> {
    match r
    case Some(w) => Some(Transition(w, NoEffect))
    case None => None
  }

  /** One user action or reply; None when the action is not available in `w`. */
  function Next(w: Wizard, a: Action): (r: Option<Transition>)
    ensures r.Some? && r.value.effect.Post? ==> a.Submit?
    ensures r.Some? && r.value.effect.Navigate? ==> a == Settle(Created(r.value.effect.queueId))
    ensures r.Some? && r.value.next.step != w.step ==>
      a.ConfirmServices? || a.BackToServices? || a.ConfirmBarber? || a.BackToBarber?
    ensures r.Some? && r.value.next.selected != w.selected ==> a.ToggleService?
  {
    match a
    case ToggleService(id) => Quiet(PickService(w, id))
    case ConfirmServices => Quiet(GoToBarber(w))
    case BackToServices => Quiet(GoBackToServices(w))
    case ChooseBarber(user) => Quiet(PickBarber(w, user))
    case ConfirmBarber => Quiet(GoToConfirm(w))
    case BackToBarber => Quiet(GoBackToBarber(w))
    case EditName(name) => Quiet(SetName(w, name))
    case EditPhone(phone) => Quiet(SetPhone(w, phone))
    case Submit => SubmitClick(w)
    case Settle(reply) => Resolve(w, reply)
  }

  /** A click on a hidden or disabled control leaves the state as it is. */
  function Apply(w: Wizard, a: Action): Wizard {
    match Next(w, a)
    case Some(t) => t.next
    case None => w
  }

  function Run(w: Wizard, actions: seq<Action>): Wizard
    decreases |actions|
  {
    if actions == [] then w else Run(Apply(w, actions[0]), actions[1..])
  }

  /** What every state reached from `Start` satisfies. */
  predicate Inv(w: Wizard) {
    && NoDup(w.selected)
    && (w.step == BarberStep ==> |w.selected| != 0)
    && (w.step == ConfirmStep ==> |w.selected| != 0 && Truthy(w.barber))
  }

  /** Every action keeps the invariant. */
  lemma ApplyKeepsInv(w: Wizard, a: Action)
    requires Inv(w)
    ensures Inv(Apply(w, a))
  {
  }

  /** The invariant holds after any sequence of actions from a state that satisfies it. */
  lemma {:induction false} RunKeepsInv(w: Wizard, actions: seq<Action>)
    requires Inv(w)
    ensures Inv(Run(w, actions))
    decreases |actions|
  {
    if actions != [] {
      ApplyKeepsInv(w, actions[0]);
      RunKeepsInv(Apply(w, actions[0]), actions[1..]);
    }
  }

  /** Whenever the submit button is enabled on a reachable screen, the mutation's guard passes:
      a request is always posted, for the chosen barber and the first selected service. */
  lemma SubmitAlwaysPosts(actions: seq<Action>)
    ensures var w := Run(Start(), actions);
      Next(w, Submit).Some? ==>
        && w.barber.Some? && w.barber.value != 0 && |w.selected| != 0
        && Next(w, Submit).value.effect
             == Post(QueueRequest(w.clientName, w.clientPhone, w.barber.value, w.selected[0]))
  {
    RunKeepsInv(Start(), actions);
  }

  /** Going forward and straight back restores the earlier state. */
  lemma BackUndoesForward(w: Wizard)
    ensures GoToBarber(w).Some? ==> GoBackToServices(GoToBarber(w).value) == Some(w)
    ensures GoToConfirm(w).Some? ==> GoBackToBarber(GoToConfirm(w).value) == Some(w)
  {
  }

  /** Choosing a barber twice is the same as choosing only the second one. */
  lemma LastBarberWins(w: Wizard, first: User, second: User)
    requires PickBarber(w, first).Some?
    ensures PickBarber(PickBarber(w, first).value, second) == PickBarber(w, second)
  {
  }

  /** The request depends on the selection only through its first id. */
  lemma RequestIgnoresLaterSelections(w: Wizard, rest: seq<int>)
    requires |w.selected| != 0
    ensures Request(w.(selected := [w.selected[0]] + rest)) == Request(w)
  {
  }

  /** While a request is pending and no reply has arrived, the submit button stays disabled:
      at most one queue request is in flight. */
  lemma {:induction false} OneRequestInFlight(w: Wizard, actions: seq<Action>)
    requires w.pending
    requires forall i | 0 <= i < |actions| :: !actions[i].Settle?
    ensures Run(w, actions).pending
    ensures Next(Run(w, actions), Submit).None?
    decreases |actions|
  {
    if actions != [] {
      OneRequestInFlight(Apply(w, actions[0]), actions[1..]);
    }
  }

  /** The actions of the walk-through, up to the submit click. */
  function WalkThroughActions(): seq<Action> {
    [ToggleService(3), ConfirmServices, ChooseBarber(User(2, "barber2", "Barber Two", BarberRole, true)),
     ConfirmBarber, EditName("Ana"), EditPhone("11999990000")]
  }

  /** The walk-through's actions take the start screen to the confirm step with everything filled in. */
  lemma WalkThroughReachesConfirm()
    ensures Run(Start(), WalkThroughActions()) == Wizard(ConfirmStep, [3], Some(2), "Ana", "11999990000", false)
  {
  }

  /** The walk-through from the start screen: service 3, barber 2, name "Ana" and a phone number,
      then submit. The request names barber 2 and service 3, and a reply with id 17 opens that
      entry's status page. With service 3 taking 30 minutes, the footer shows 30 minutes. */
  lemma WalkThrough()
    ensures var w := Run(Start(), WalkThroughActions());
      && Next(w, Submit).Some?
      && Next(w, Submit).value.effect == Post(QueueRequest("Ana", "11999990000", 2, 3))
      && Next(Next(w, Submit).value.next, Settle(Created(17))).value.effect == Navigate(17)
    ensures var w := Run(Start(), WalkThroughActions());
      Duration.TotalDuration(Some([Service(3, "Corte", 40.0, 30, true)]), w.selected) == 30
  {
    WalkThroughReachesConfirm();
  }
}
