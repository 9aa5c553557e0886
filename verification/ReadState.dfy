/** The mail client's automatic mark-as-read against the user's own mark-as-unread, with requests in flight. */
module ReadState {
  import opened Text

  type MessageId = string

  datatype Kind = AutoRead(nonce: nat) | Read | Unread

  /** A request the server has not applied yet, or whose answer the client has not handled yet. */
  datatype Request = Request(message: MessageId, kind: Kind, applied: bool)

  /** The effect that runs for the open message, with the nonce its timer compares. */
  datatype Effect = Effect(message: MessageId, nonce: nat)

  datatype State = State(
    selected: Option<MessageId>,
    effect: Option<Effect>,
    timer: bool,
    manual: Option<MessageId>,
    nonces: map<MessageId, nat>,
    seen: set<MessageId>,
    server: set<MessageId>,
    requests: map<nat, Request>,
    sent: nat)

  datatype Step =
    | Select(target: Option<MessageId>, arms: bool)
    | Fire
    | ClickUnread(message: MessageId)
    | ClickRead(message: MessageId)
    | ServerApplies(id: nat)
    | Completes(id: nat)

  function NonceIn(nonces: map<MessageId, nat>, m: MessageId): nat {
    if m in nonces then nonces[m] else 0
  }

  function NonceOf(s: State, m: MessageId): nat {
    NonceIn(s.nonces, m)
  }

  function Bump(s: State, m: MessageId): State {
    s.(nonces := s.nonces[m := NonceOf(s, m) + 1])
  }

  function Send(s: State, m: MessageId, kind: Kind): State {
    s.(requests := s.requests[s.sent := Request(m, kind, false)], sent := s.sent + 1)
  }

  /** The cleanup of the effect that ran for the previous selection. */
  function Cleanup(s: State): State {
    if s.effect.None? then s else Bump(s, s.effect.value.message).(effect := None, timer := false)
  }

  /** The effect for a message that is listed and not seen, unless settings say never: `arms`. */
  function Arm(s: State, m: MessageId): State {
    var t := Bump(s, m);
    t.(effect := Some(Effect(m, NonceOf(t, m))), timer := true)
  }

  function DoSelect(s: State, target: Option<MessageId>, arms: bool): State {
    var t := Cleanup(s).(selected := target);
    if target.None? then t else
      var u := t.(manual := None);
      if arms && target.value !in u.seen then Arm(u, target.value) else u
  }

  function DoFire(s: State, e: Effect): State {
    var t := s.(timer := false);
    if NonceOf(s, e.message) != e.nonce || s.manual == Some(e.message) || e.message in s.seen then t
    else Send(t.(seen := t.seen + {e.message}), e.message, AutoRead(e.nonce))
  }

  function DoClickUnread(s: State, m: MessageId): State {
    var t := if s.selected == Some(m) then Bump(s, m).(manual := Some(m)) else s;
    Send(t.(seen := t.seen - {m}), m, Unread)
  }

  function DoClickRead(s: State, m: MessageId): State {
    if m in s.seen then s else
      var t := if s.selected == Some(m) then Bump(s, m).(manual := None) else s;
      Send(t.(seen := t.seen + {m}), m, Read)
  }

  function DoApply(s: State, id: nat): State
    requires id in s.requests
  {
    var r := s.requests[id];
    s.(server := if r.kind == Unread then s.server - {r.message} else s.server + {r.message},
       requests := s.requests[id := r.(applied := true)])
  }

  /** An automatic read whose nonce has moved on by the time it is answered is taken back. */
  function DoComplete(s: State, id: nat): State
    requires id in s.requests
  {
    var r := s.requests[id];
    var t := s.(requests := s.requests - {id});
    if r.kind.AutoRead? && NonceOf(s, r.message) != r.kind.nonce then Send(t, r.message, Unread) else t
  }

  predicate Enabled(s: State, step: Step) {
    match step
    case Select(target, _) => target != s.selected
    case Fire => s.timer && s.effect.Some?
    case ServerApplies(id) => id in s.requests && !s.requests[id].applied
    case Completes(id) => id in s.requests && s.requests[id].applied
    case _ => true
  }

  function Apply(s: State, step: Step): State
    requires Enabled(s, step)
  {
    match step
    case Select(target, arms) => DoSelect(s, target, arms)
    case Fire => DoFire(s, s.effect.value)
    case ClickUnread(m) => DoClickUnread(s, m)
    case ClickRead(m) => DoClickRead(s, m)
    case ServerApplies(id) => DoApply(s, id)
    case Completes(id) => DoComplete(s, id)
  }

  predicate Legal(s: State, run: seq<Step>)
    decreases |run|
  {
    run == [] || (Enabled(s, run[0]) && Legal(Apply(s, run[0]), run[1..]))
  }

  function After(s: State, run: seq<Step>): State
    requires Legal(s, run)
    decreases |run|
  {
    if run == [] then s else After(Apply(s, run[0]), run[1..])
  }

  const INITIAL := State(None, None, false, None, map[], {}, {}, map[], 0)

  /** Any messages may start out read, the same way in the list and on the server. */
  ghost predicate Start(s: State) {
    s == INITIAL.(seen := s.seen, server := s.seen)
  }

  ghost predicate Reachable(s: State) {
    exists s0, run :: Start(s0) && Legal(s0, run) && After(s0, run) == s
  }

  // ----- Nonces tell current automatic reads from abandoned ones -----

  ghost predicate Numbered(s: State) {
    && (s.effect.Some? ==>
          s.selected == Some(s.effect.value.message) && s.effect.value.nonce <= NonceOf(s, s.effect.value.message))
    && (s.timer ==> s.effect.Some?)
    && (forall id | id in s.requests :: id < s.sent && RequestNumbered(s, s.requests[id]))
    && (s.timer ==> forall id | id in s.requests :: OlderThan(s.effect.value, s.requests[id]))
  }

  /** The effect has not sent its read yet. */
  ghost predicate OlderThan(e: Effect, r: Request) {
    r.message == e.message && r.kind.AutoRead? ==> r.kind.nonce < e.nonce
  }

  ghost predicate RequestNumbered(s: State, r: Request) {
    r.kind.AutoRead? ==>
      && r.kind.nonce <= NonceOf(s, r.message)
      && (r.kind.nonce == NonceOf(s, r.message) ==> s.effect == Some(Effect(r.message, r.kind.nonce)))
  }

  lemma SelectIsNumbered(s: State, target: Option<MessageId>, arms: bool)
    requires Numbered(s) && target != s.selected
    ensures Numbered(DoSelect(s, target, arms))
  {
  }

  lemma FireIsNumbered(s: State)
    requires Numbered(s) && s.timer
    ensures Numbered(DoFire(s, s.effect.value))
  {
  }

  lemma ClickUnreadIsNumbered(s: State, m: MessageId)
    requires Numbered(s)
    ensures Numbered(DoClickUnread(s, m))
  {
  }

  lemma ClickReadIsNumbered(s: State, m: MessageId)
    requires Numbered(s)
    ensures Numbered(DoClickRead(s, m))
  {
  }

  lemma RequestsAreNumbered(s: State, id: nat)
    requires Numbered(s) && id in s.requests
    ensures Numbered(DoApply(s, id)) && Numbered(DoComplete(s, id))
  {
  }

  lemma {:induction false} NumberedRun(s: State, run: seq<Step>)
    requires Numbered(s) && Legal(s, run)
    ensures Numbered(After(s, run))
    decreases |run|
  {
    if run != [] {
      match run[0] {
        case Select(target, arms) => SelectIsNumbered(s, target, arms);
        case Fire => FireIsNumbered(s);
        case ClickUnread(m) => ClickUnreadIsNumbered(s, m);
        case ClickRead(m) => ClickReadIsNumbered(s, m);
        case ServerApplies(id) => RequestsAreNumbered(s, id);
        case Completes(id) => RequestsAreNumbered(s, id);
      }
      NumberedRun(Apply(s, run[0]), run[1..]);
    }
  }

  lemma ReachableIsNumbered(s: State)
    requires Reachable(s)
    ensures Numbered(s)
  {
    var s0, run :| Start(s0) && Legal(s0, run) && After(s0, run) == s;
    NumberedRun(s0, run);
  }

  // ----- After the user marks a message unread -----

  ghost predicate Repairs(r: Request, m: MessageId) {
    r.message == m && (r.kind.AutoRead? || (r.kind == Unread && !r.applied))
  }

  /** Nothing under way can make the message read for good: every automatic read is abandoned and will be taken back. */
  ghost predicate Won(s: State, m: MessageId) {
    && m !in s.seen
    && (s.timer ==> s.effect.Some?)
    && (s.effect.Some? && s.effect.value.message == m ==> s.effect.value.nonce < NonceOf(s, m))
    && (forall id | id in s.requests :: id < s.sent && RequestLost(s, m, s.requests[id]))
    && (m in s.server ==> exists id :: id in s.requests && Repairs(s.requests[id], m))
  }

  ghost predicate RequestLost(s: State, m: MessageId, r: Request) {
    r.message == m ==>
      && (r.kind.AutoRead? ==> r.kind.nonce < NonceOf(s, m))
      && (r.kind == Read ==> r.applied)
  }

  /** No mark-as-read that the user sent earlier is still on its way. */
  ghost predicate NoReadPending(s: State, m: MessageId) {
    forall id | id in s.requests :: s.requests[id].message == m && s.requests[id].kind == Read ==> s.requests[id].applied
  }

  /** The user neither marks the message read nor opens it. */
  predicate LeavesAlone(step: Step, m: MessageId) {
    match step
    case Select(target, _) => target != Some(m)
    case ClickRead(message) => message != m
    case _ => true
  }

  lemma ClickWins(s: State, m: MessageId)
    requires Numbered(s) && NoReadPending(s, m)
    ensures Won(DoClickUnread(s, m), m)
  {
    var t := DoClickUnread(s, m);
    assert Repairs(t.requests[s.sent], m);
    forall id | id in t.requests
      ensures id < t.sent && RequestLost(t, m, t.requests[id])
    {
      if id != s.sent {
        assert RequestNumbered(s, s.requests[id]);
      }
    }
  }

  lemma SelectKeepsWon(s: State, m: MessageId, target: Option<MessageId>, arms: bool)
    requires Won(s, m) && target != Some(m)
    ensures Won(DoSelect(s, target, arms), m)
  {
  }

  lemma FireKeepsWon(s: State, m: MessageId)
    requires Won(s, m) && s.timer
    ensures Won(DoFire(s, s.effect.value), m)
  {
    var t := DoFire(s, s.effect.value);
    if m in s.server {
      var id :| id in s.requests && Repairs(s.requests[id], m);
      assert t.requests[id] == s.requests[id];
    }
  }

  lemma ClickUnreadKeepsWon(s: State, m: MessageId, x: MessageId)
    requires Won(s, m)
    ensures Won(DoClickUnread(s, x), m)
  {
    var t := DoClickUnread(s, x);
    if m in s.server {
      var id :| id in s.requests && Repairs(s.requests[id], m);
      assert t.requests[id] == s.requests[id];
    }
  }

  lemma ClickReadKeepsWon(s: State, m: MessageId, x: MessageId)
    requires Won(s, m) && x != m
    ensures Won(DoClickRead(s, x), m)
  {
    var t := DoClickRead(s, x);
    if m in s.server {
      var id :| id in s.requests && Repairs(s.requests[id], m);
      assert t.requests[id] == s.requests[id];
    }
  }

  lemma ApplyKeepsWon(s: State, m: MessageId, id: nat)
    requires Won(s, m) && id in s.requests && !s.requests[id].applied
    ensures Won(DoApply(s, id), m)
  {
    var t := DoApply(s, id);
    if m in t.server {
      if s.requests[id].message == m {
        assert Repairs(t.requests[id], m);
      } else {
        var other :| other in s.requests && Repairs(s.requests[other], m);
        assert t.requests[other] == s.requests[other];
      }
    }
  }

  lemma CompleteKeepsWon(s: State, m: MessageId, id: nat)
    requires Won(s, m) && id in s.requests && s.requests[id].applied
    ensures Won(DoComplete(s, id), m)
  {
    var t := DoComplete(s, id);
    if m in s.server {
      var other :| other in s.requests && Repairs(s.requests[other], m);
      if other == id {
        assert Repairs(t.requests[s.sent], m);
      } else {
        assert t.requests[other] == s.requests[other];
      }
    }
  }

  lemma {:induction false} WonRun(s: State, m: MessageId, run: seq<Step>)
    requires Won(s, m) && Legal(s, run) && forall step | step in run :: LeavesAlone(step, m)
    ensures Won(After(s, run), m)
    decreases |run|
  {
    if run != [] {
      assert LeavesAlone(run[0], m);
      match run[0] {
        case Select(target, arms) => SelectKeepsWon(s, m, target, arms);
        case Fire => FireKeepsWon(s, m);
        case ClickUnread(x) => ClickUnreadKeepsWon(s, m, x);
        case ClickRead(x) => ClickReadKeepsWon(s, m, x);
        case ServerApplies(id) => ApplyKeepsWon(s, m, id);
        case Completes(id) => CompleteKeepsWon(s, m, id);
      }
      WonRun(Apply(s, run[0]), m, run[1..]);
    }
  }

  ghost predicate AllAnswered(s: State, m: MessageId) {
    forall id | id in s.requests :: s.requests[id].message != m
  }

  /**
   * The user's unread wins: whatever order the server applies requests in, once those of the message are answered it is
   * unread on the server; and at no point on the way does the list show it read.
   */
  lemma ManualUnreadWins(s: State, m: MessageId, run: seq<Step>)
    requires Reachable(s) && NoReadPending(s, m)
    requires Legal(DoClickUnread(s, m), run) && forall step | step in run :: LeavesAlone(step, m)
    ensures m !in After(DoClickUnread(s, m), run).seen
    ensures AllAnswered(After(DoClickUnread(s, m), run), m) ==> m !in After(DoClickUnread(s, m), run).server
  {
    ReachableIsNumbered(s);
    ClickWins(s, m);
    WonRun(DoClickUnread(s, m), m, run);
  }

  // ----- Only a read of the user's own, still on its way, can win against it -----

  lemma {:induction false} LegalAppend(s: State, a: seq<Step>, b: seq<Step>)
    requires Legal(s, a) && Legal(After(s, a), b)
    ensures Legal(s, a + b) && After(s, a + b) == After(After(s, a), b)
    decreases |a|
  {
    if a == [] {
      assert a + b == b;
    } else {
      assert (a + b)[1..] == a[1..] + b;
      LegalAppend(Apply(s, a[0]), a[1..], b);
    }
  }

  lemma OneStep(s: State, step: Step)
    requires Enabled(s, step)
    ensures Legal(s, [step]) && After(s, [step]) == Apply(s, step)
  {
    assert [step][1..] == [];
  }

  predicate OnlyAnswers(run: seq<Step>) {
    forall step | step in run :: step.ServerApplies? || step.Completes?
  }

  /** The server applies a request if it has not, and the client handles the answer. */
  lemma Finish(s: State, id: nat) returns (run: seq<Step>)
    requires id in s.requests
    ensures Legal(s, run) && OnlyAnswers(run)
    ensures
      var t := if s.requests[id].applied then s else DoApply(s, id);
      After(s, run) == DoComplete(t, id)
  {
    if s.requests[id].applied {
      run := [Completes(id)];
      OneStep(s, Completes(id));
    } else {
      var t := DoApply(s, id);
      OneStep(s, ServerApplies(id));
      OneStep(t, Completes(id));
      LegalAppend(s, [ServerApplies(id)], [Completes(id)]);
      run := [ServerApplies(id)] + [Completes(id)];
    }
  }

  /** One request can be brought to rest, with the request that takes it back if there is one. */
  lemma Settle(s: State, id: nat) returns (run: seq<Step>)
    requires id in s.requests && forall k | k in s.requests :: k < s.sent
    ensures Legal(s, run) && OnlyAnswers(run)
    ensures After(s, run).requests == s.requests - {id} && After(s, run).sent >= s.sent
  {
    run := Finish(s, id);
    var t := After(s, run);
    if t.sent > s.sent {
      assert s.sent in t.requests && t.requests[s.sent].kind == Unread;
      var more := Finish(t, s.sent);
      LegalAppend(s, run, more);
      assert After(t, more).requests == s.requests - {id};
      run := run + more;
    } else {
      assert t.requests == s.requests - {id};
    }
  }

  function Others(s: State, m: MessageId, keep: nat): set<nat> {
    set id | id in s.requests && s.requests[id].message == m && id != keep
  }

  /** All requests about a message but one can come to rest before it. */
  lemma {:induction false} SettleOthers(s: State, m: MessageId, keep: nat) returns (run: seq<Step>)
    requires keep in s.requests && forall k | k in s.requests :: k < s.sent
    ensures Legal(s, run) && OnlyAnswers(run)
    ensures keep in After(s, run).requests && After(s, run).requests[keep] == s.requests[keep]
    ensures Others(After(s, run), m, keep) == {}
    decreases |Others(s, m, keep)|
  {
    var others := Others(s, m, keep);
    if others == {} {
      run := [];
    } else {
      var id :| id in others;
      run := Settle(s, id);
      var t := After(s, run);
      assert Others(t, m, keep) == others - {id};
      var more := SettleOthers(t, m, keep);
      LegalAppend(s, run, more);
      run := run + more;
    }
  }

  lemma PendingReadCanComeLast(s: State, m: MessageId, keep: nat) returns (run: seq<Step>)
    requires keep in s.requests && s.requests[keep] == Request(m, Read, false) && forall k | k in s.requests :: k < s.sent
    ensures Legal(s, run) && OnlyAnswers(run)
    ensures AllAnswered(After(s, run), m) && m in After(s, run).server
  {
    run := SettleOthers(s, m, keep);
    var t := After(s, run);
    var more := Finish(t, keep);
    LegalAppend(s, run, more);
    var u := After(t, more);
    forall id | id in u.requests
      ensures u.requests[id].message != m
    {
      assert id !in Others(t, m, keep);
    }
    run := run + more;
  }

  /** Every undisturbed run that answers all requests about the message leaves it unread on the server. */
  ghost predicate UnreadAlwaysWins(s: State, m: MessageId) {
    forall run |
      && Legal(DoClickUnread(s, m), run)
      && (forall step | step in run :: LeavesAlone(step, m))
      && AllAnswered(After(DoClickUnread(s, m), run), m) ::
      m !in After(DoClickUnread(s, m), run).server
  }

  /** The click wins every race exactly when no read that the user sent before it is still on its way. */
  lemma UnreadWinsExactlyWhenNoReadIsPending(s: State, m: MessageId)
    requires Reachable(s)
    ensures UnreadAlwaysWins(s, m) <==> NoReadPending(s, m)
  {
    var t := DoClickUnread(s, m);
    if NoReadPending(s, m) {
      forall run | Legal(t, run) && (forall step | step in run :: LeavesAlone(step, m)) && AllAnswered(After(t, run), m)
        ensures m !in After(t, run).server
      {
        ManualUnreadWins(s, m, run);
      }
    } else {
      ReachableIsNumbered(s);
      ClickUnreadIsNumbered(s, m);
      var keep :| keep in s.requests && s.requests[keep].message == m && s.requests[keep].kind == Read && !s.requests[keep].applied;
      assert t.requests[keep] == Request(m, Read, false);
      var run := PendingReadCanComeLast(t, m, keep);
      assert forall step | step in run :: LeavesAlone(step, m);
    }
  }

  /** Such a read is one click away. */
  lemma AReadCanBePending(m: MessageId)
    ensures exists s :: Reachable(s) && !NoReadPending(s, m)
  {
    OneStep(INITIAL, ClickRead(m));
    var s := DoClickRead(INITIAL, m);
    assert Start(INITIAL);
    assert After(INITIAL, [ClickRead(m)]) == s;
    assert Reachable(s);
    assert 0 in s.requests && s.requests[0] == Request(m, Read, false);
    assert !NoReadPending(s, m);
  }

  // ----- Moving on too early takes the automatic read back -----

  /** The user clicks neither way and does not come back to the message. */
  predicate HandsOff(step: Step, m: MessageId) {
    LeavesAlone(step, m) && step != ClickUnread(m)
  }

  /** Another selection while request `id` is still in flight. */
  predicate MovesOnBefore(s: State, run: seq<Step>, id: nat)
    requires Legal(s, run)
    decreases |run|
  {
    run != [] && ((run[0].Select? && id in s.requests) || MovesOnBefore(Apply(s, run[0]), run[1..], id))
  }

  datatype Phase = Current | Abandoned | Kept | TakenBack

  ghost predicate OnlyRequest(s: State, m: MessageId, id: nat, nonce: nat) {
    && id in s.requests && s.requests[id].message == m && s.requests[id].kind == AutoRead(nonce)
    && (s.requests[id].applied ==> m in s.server)
    && (forall k | k in s.requests && s.requests[k].message == m :: k == id || Inert(s.requests[k]))
  }

  /** Applied, and nothing will be sent after it. */
  predicate Inert(r: Request) {
    r.applied && !r.kind.AutoRead?
  }

  /** Whatever else is in flight about the message changes nothing any more. */
  ghost predicate Calm(s: State, m: MessageId) {
    forall k | k in s.requests && s.requests[k].message == m :: Inert(s.requests[k])
  }

  /** How far the automatic read `id` of message `m` has come, once its timer has fired. */
  ghost predicate In(phase: Phase, s: State, m: MessageId, id: nat, nonce: nat) {
    && m in s.seen && id < s.sent
    && (s.timer ==> s.effect.Some? && s.effect.value.message != m)
    && (forall k | k in s.requests :: k < s.sent)
    && match phase
       case Current => OnlyRequest(s, m, id, nonce) && NonceOf(s, m) == nonce && s.effect == Some(Effect(m, nonce))
       case Abandoned =>
         OnlyRequest(s, m, id, nonce) && nonce < NonceOf(s, m) && (s.effect.Some? ==> s.effect.value.message != m)
       case Kept => Calm(s, m) && m in s.server && id !in s.requests
       case TakenBack =>
         && (forall k | k in s.requests && s.requests[k].message == m :: s.requests[k].kind == Unread || Inert(s.requests[k]))
         && (m in s.server ==> exists k :: k in s.requests && s.requests[k] == Request(m, Unread, false))
  }

  lemma SelectMoves(phase: Phase, s: State, m: MessageId, id: nat, nonce: nat, target: Option<MessageId>, arms: bool)
    requires In(phase, s, m, id, nonce) && target != Some(m)
    ensures In(if phase == Current then Abandoned else phase, DoSelect(s, target, arms), m, id, nonce)
  {
    if phase == TakenBack && m in s.server {
      var k :| k in s.requests && s.requests[k] == Request(m, Unread, false);
      assert DoSelect(s, target, arms).requests == s.requests;
    }
  }

  /** Requests about other messages change nothing. */
  lemma SendElsewhere(phase: Phase, s: State, m: MessageId, id: nat, nonce: nat, x: MessageId, kind: Kind)
    requires In(phase, s, m, id, nonce) && x != m
    ensures In(phase, Send(s, x, kind), m, id, nonce)
  {
    var t := Send(s, x, kind);
    if phase == TakenBack && m in s.server {
      var k :| k in s.requests && s.requests[k] == Request(m, Unread, false);
      assert t.requests[k] == s.requests[k];
    }
  }

  lemma FireElsewhere(phase: Phase, s: State, m: MessageId, id: nat, nonce: nat)
    requires In(phase, s, m, id, nonce) && s.timer && s.effect.Some?
    ensures In(phase, DoFire(s, s.effect.value), m, id, nonce)
  {
    var e := s.effect.value;
    var t := s.(timer := false);
    assert In(phase, t, m, id, nonce);
    assert In(phase, t.(seen := t.seen + {e.message}), m, id, nonce);
    SendElsewhere(phase, t.(seen := t.seen + {e.message}), m, id, nonce, e.message, AutoRead(e.nonce));
  }

  lemma ClickElsewhere(phase: Phase, s: State, m: MessageId, id: nat, nonce: nat, x: MessageId)
    requires In(phase, s, m, id, nonce) && x != m
    ensures In(phase, DoClickUnread(s, x), m, id, nonce)
    ensures In(phase, DoClickRead(s, x), m, id, nonce)
  {
    var t := if s.selected == Some(x) then Bump(s, x).(manual := Some(x)) else s;
    var u := if s.selected == Some(x) then Bump(s, x).(manual := None) else s;
    assert In(phase, t.(seen := t.seen - {x}), m, id, nonce);
    SendElsewhere(phase, t.(seen := t.seen - {x}), m, id, nonce, x, Unread);
    assert In(phase, u.(seen := u.seen + {x}), m, id, nonce);
    SendElsewhere(phase, u.(seen := u.seen + {x}), m, id, nonce, x, Read);
  }

  lemma ServerMoves(phase: Phase, s: State, m: MessageId, id: nat, nonce: nat, k: nat)
    requires In(phase, s, m, id, nonce) && k in s.requests && !s.requests[k].applied
    ensures In(phase, DoApply(s, k), m, id, nonce)
  {
    var t := DoApply(s, k);
    if phase == TakenBack && m in t.server {
      var other :| other in s.requests && s.requests[other] == Request(m, Unread, false);
      assert t.requests[other] == s.requests[other];
    }
  }

  lemma AnswerMoves(phase: Phase, s: State, m: MessageId, id: nat, nonce: nat, k: nat)
    requires In(phase, s, m, id, nonce) && k in s.requests && s.requests[k].applied
    ensures
      var next := if k != id then phase else match phase case Current => Kept case Abandoned => TakenBack case _ => phase;
      In(next, DoComplete(s, k), m, id, nonce)
  {
    var t := DoComplete(s, k);
    if phase == TakenBack && m in t.server {
      var other :| other in s.requests && s.requests[other] == Request(m, Unread, false);
      assert t.requests[other] == s.requests[other];
    }
    if phase == Abandoned && k == id {
      assert t.requests[s.sent] == Request(m, Unread, false);
    }
  }

  /** The phases a message can be in at the end of a run. */
  ghost predicate Outcome(moved: bool, s: State, m: MessageId, id: nat, nonce: nat) {
    if moved then In(Abandoned, s, m, id, nonce) || In(TakenBack, s, m, id, nonce)
    else In(Current, s, m, id, nonce) || In(Kept, s, m, id, nonce)
  }

  lemma StepMoves(phase: Phase, s: State, m: MessageId, id: nat, nonce: nat, step: Step) returns (next: Phase)
    requires In(phase, s, m, id, nonce) && Enabled(s, step) && HandsOff(step, m)
    ensures In(next, Apply(s, step), m, id, nonce)
    ensures phase == Current ==> next == (if step.Select? then Abandoned else if step == Completes(id) then Kept else Current)
    ensures phase == Abandoned ==> next == Abandoned || next == TakenBack
    ensures phase == Kept || phase == TakenBack ==> next == phase
  {
    next := phase;
    match step {
      case Select(target, arms) =>
        SelectMoves(phase, s, m, id, nonce, target, arms);
        next := if phase == Current then Abandoned else phase;
      case Fire => FireElsewhere(phase, s, m, id, nonce);
      case ClickUnread(x) => ClickElsewhere(phase, s, m, id, nonce, x);
      case ClickRead(x) => ClickElsewhere(phase, s, m, id, nonce, x);
      case ServerApplies(k) => ServerMoves(phase, s, m, id, nonce, k);
      case Completes(k) =>
        AnswerMoves(phase, s, m, id, nonce, k);
        next := if k != id then phase else match phase case Current => Kept case Abandoned => TakenBack case _ => phase;
    }
  }

  lemma {:induction false} RunMoves(phase: Phase, s: State, m: MessageId, id: nat, nonce: nat, run: seq<Step>)
    requires In(phase, s, m, id, nonce) && Legal(s, run) && forall step | step in run :: HandsOff(step, m)
    ensures phase == Current ==> Outcome(MovesOnBefore(s, run, id), After(s, run), m, id, nonce)
    ensures phase == Abandoned || phase == TakenBack ==> Outcome(true, After(s, run), m, id, nonce)
    ensures phase == Kept ==> Outcome(false, After(s, run), m, id, nonce)
    decreases |run|
  {
    if run != [] {
      assert HandsOff(run[0], m);
      var next := StepMoves(phase, s, m, id, nonce, run[0]);
      RunMoves(next, Apply(s, run[0]), m, id, nonce, run[1..]);
      if next == Kept {
        NeverMovesOnAfter(Apply(s, run[0]), id, run[1..]);
      }
    }
  }

  /** Once the answer was handled, moving on does no harm. */
  lemma {:induction false} NeverMovesOnAfter(s: State, id: nat, run: seq<Step>)
    requires id !in s.requests && id < s.sent && Legal(s, run)
    ensures !MovesOnBefore(s, run, id)
    decreases |run|
  {
    if run != [] {
      NeverMovesOnAfter(Apply(s, run[0]), id, run[1..]);
    }
  }

  /** The timer fires and finds nothing to stop it. */
  ghost predicate AboutToRead(s: State, m: MessageId) {
    s.timer && s.effect == Some(Effect(m, NonceOf(s, m))) && s.manual != Some(m) && m !in s.seen
  }

  /**
   * With nothing else under way about the message, an automatic read stays on the server exactly when the user stays with
   * the message until it is answered. Otherwise it is taken back there, while the list goes on showing the message as read.
   */
  lemma MovingOnTakesTheReadBack(s: State, m: MessageId, run: seq<Step>)
    requires Reachable(s) && AboutToRead(s, m) && Calm(s, m)
    requires
      var fired := DoFire(s, s.effect.value);
      Legal(fired, run) && (forall step | step in run :: HandsOff(step, m)) && AllAnswered(After(fired, run), m)
    ensures
      var fired := DoFire(s, s.effect.value);
      var end := After(fired, run);
      && m in end.seen
      && (m in end.server <==> !MovesOnBefore(fired, run, s.sent))
  {
    ReachableIsNumbered(s);
    var fired := DoFire(s, s.effect.value);
    assert In(Current, fired, m, s.sent, NonceOf(s, m));
    RunMoves(Current, fired, m, s.sent, NonceOf(s, m), run);
  }

  // ----- Anything else under way can upset that -----

  lemma {:induction false} AnswersLeaveTheUserAlone(s: State, run: seq<Step>, id: nat)
    requires Legal(s, run) && OnlyAnswers(run)
    ensures !MovesOnBefore(s, run, id) && After(s, run).nonces == s.nonces
    ensures (forall k | k in s.requests :: k < s.sent) ==> forall k | k in After(s, run).requests :: k < After(s, run).sent
    decreases |run|
  {
    if run != [] {
      assert run[0] in run;
      AnswersLeaveTheUserAlone(Apply(s, run[0]), run[1..], id);
    }
  }

  lemma LastOneAnswered(s: State, m: MessageId, keep: nat)
    requires keep in s.requests && Others(s, m, keep) == {}
    ensures forall k | k in s.requests && s.requests[k].message == m :: k == keep
  {
    forall k | k in s.requests && s.requests[k].message == m
      ensures k == keep
    {
      assert k !in Others(s, m, keep);
    }
  }

  /** An unread still on its way, or an abandoned automatic read, can come last and leave the message unread. */
  lemma UnreadCanComeLast(s: State, m: MessageId, keep: nat) returns (run: seq<Step>)
    requires keep in s.requests && s.requests[keep].message == m && forall k | k in s.requests :: k < s.sent
    requires var r := s.requests[keep];
             r == Request(m, Unread, false) || (r.kind.AutoRead? && r.kind.nonce != NonceOf(s, m))
    ensures Legal(s, run) && OnlyAnswers(run)
    ensures AllAnswered(After(s, run), m) && m !in After(s, run).server
  {
    run := SettleOthers(s, m, keep);
    var t := After(s, run);
    AnswersLeaveTheUserAlone(s, run, keep);
    LastOneAnswered(t, m, keep);
    var more := Finish(t, keep);
    var u := After(t, more);
    LegalAppend(s, run, more);
    run := run + more;
    if t.requests[keep].kind.AutoRead? {
      assert u.requests[t.sent] == Request(m, Unread, false);
      var last := Finish(u, t.sent);
      LegalAppend(s, run, last);
      run := run + last;
    }
  }

  /** Moving on and then letting an earlier manual read come last leaves the message read. */
  lemma ReadCanComeLast(s: State, m: MessageId, keep: nat) returns (run: seq<Step>)
    requires keep in s.requests && s.requests[keep] == Request(m, Read, false) && (forall k | k in s.requests :: k < s.sent)
    requires s.selected == Some(m)
    ensures Legal(s, run) && run != [] && run[0] == Select(None, false) && OnlyAnswers(run[1..])
    ensures AllAnswered(After(s, run), m) && m in After(s, run).server
  {
    var t := DoSelect(s, None, false);
    assert t.requests == s.requests && t.sent == s.sent;
    var rest := PendingReadCanComeLast(t, m, keep);
    OneStep(s, Select(None, false));
    LegalAppend(s, [Select(None, false)], rest);
    run := [Select(None, false)] + rest;
    assert run[1..] == rest;
  }

  /** In every run that answers all requests about the message, staying or moving on decides. */
  ghost predicate StayingDecides(s: State, m: MessageId)
    requires s.effect.Some?
  {
    forall run |
      && Legal(DoFire(s, s.effect.value), run)
      && (forall step | step in run :: HandsOff(step, m))
      && AllAnswered(After(DoFire(s, s.effect.value), run), m) ::
      m in After(DoFire(s, s.effect.value), run).server <==> !MovesOnBefore(DoFire(s, s.effect.value), run, s.sent)
  }

  lemma NotCalmUpsets(s: State, m: MessageId, keep: nat)
    requires Reachable(s) && AboutToRead(s, m)
    requires keep in s.requests && s.requests[keep].message == m && !Inert(s.requests[keep])
    ensures !StayingDecides(s, m)
  {
    ReachableIsNumbered(s);
    FireIsNumbered(s);
    assert RequestNumbered(s, s.requests[keep]) && OlderThan(s.effect.value, s.requests[keep]);
    var fired := DoFire(s, s.effect.value);
    assert keep < s.sent && fired.requests[keep] == s.requests[keep] && s.sent in fired.requests;
    if s.requests[keep].kind == Read {
      var run := ReadCanComeLast(fired, m, keep);
      assert MovesOnBefore(fired, run, s.sent);
      assert forall step | step in run :: step == run[0] || step in run[1..];
      assert forall step | step in run :: HandsOff(step, m);
    } else {
      var run := UnreadCanComeLast(fired, m, keep);
      AnswersLeaveTheUserAlone(fired, run, s.sent);
      assert forall step | step in run :: HandsOff(step, m);
    }
  }

  /** Staying or moving on decides every run exactly when nothing else is under way about the message as the timer fires. */
  lemma StayingDecidesExactlyWhenCalm(s: State, m: MessageId)
    requires Reachable(s) && AboutToRead(s, m)
    ensures StayingDecides(s, m) <==> Calm(s, m)
  {
    var fired := DoFire(s, s.effect.value);
    if Calm(s, m) {
      forall run | Legal(fired, run) && (forall step | step in run :: HandsOff(step, m)) && AllAnswered(After(fired, run), m)
        ensures m in After(fired, run).server <==> !MovesOnBefore(fired, run, s.sent)
      {
        MovingOnTakesTheReadBack(s, m, run);
      }
    } else {
      var keep :| keep in s.requests && s.requests[keep].message == m && !Inert(s.requests[keep]);
      NotCalmUpsets(s, m, keep);
    }
  }

  // ----- Unread messages are read by being opened -----

  /** Opening an unread message starts a timer that nothing but the user stops. */
  lemma OpeningArmsTheTimer(s: State, m: MessageId)
    requires Reachable(s) && s.selected != Some(m) && m !in s.seen
    ensures Enabled(s, Select(Some(m), true)) && AboutToRead(DoSelect(s, Some(m), true), m)
  {
  }

  /** From every reachable state an unread message is read, in the list and on the server, by opening it and waiting. */
  lemma OpenedMessageIsRead(s: State, m: MessageId) returns (run: seq<Step>)
    requires Reachable(s) && s.selected != Some(m) && m !in s.seen
    ensures run == [Select(Some(m), true), Fire, ServerApplies(s.sent), Completes(s.sent)] && Legal(s, run)
    ensures m in After(s, run).seen && m in After(s, run).server
  {
    ReachableIsNumbered(s);
    run := [Select(Some(m), true), Fire, ServerApplies(s.sent), Completes(s.sent)];
    var shown := DoSelect(s, Some(m), true);
    OpeningArmsTheTimer(s, m);
    var fired := DoFire(shown, shown.effect.value);
    var applied := DoApply(fired, s.sent);
    assert fired.requests[s.sent] == Request(m, AutoRead(NonceOf(shown, m)), false);
    OneStep(applied, Completes(s.sent));
    OneMoreStep(fired, ServerApplies(s.sent), [Completes(s.sent)]);
    OneMoreStep(shown, Fire, [ServerApplies(s.sent)] + [Completes(s.sent)]);
    OneMoreStep(s, Select(Some(m), true), [Fire] + ([ServerApplies(s.sent)] + [Completes(s.sent)]));
    assert run == [Select(Some(m), true)] + ([Fire] + ([ServerApplies(s.sent)] + [Completes(s.sent)]));
  }

  lemma OneMoreStep(s: State, step: Step, run: seq<Step>)
    requires Enabled(s, step) && Legal(Apply(s, step), run)
    ensures Legal(s, [step] + run) && After(s, [step] + run) == After(Apply(s, step), run)
  {
    assert ([step] + run)[1..] == run;
  }
}
