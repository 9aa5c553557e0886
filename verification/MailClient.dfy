/**
 * The hook's refs, timers and handlers as an object that changes in place. The object is always on a run of `ReadState`,
 * so what holds of every reachable state holds of it, and each handler says what it does to the race.
 */
module MailClient {
  import opened Text
  import opened ReadState

  class Hook {
    var selected: Option<MessageId>
    var effect: Option<Effect>
    var timer: bool
    var manualUnreadWhileOpen: Option<MessageId>
    var autoReadNonce: map<MessageId, nat>
    var seen: set<MessageId>
    var server: set<MessageId>
    var requests: map<nat, Request>
    var sent: nat
    ghost const start: State
    ghost var log: seq<Step>

    ghost function View(): State
      reads this
    {
      State(selected, effect, timer, manualUnreadWhileOpen, autoReadNonce, seen, server, requests, sent)
    }

    /** The handlers called so far are a legal run from a mailbox at rest. */
    ghost predicate Valid()
      reads this
    {
      Start(start) && Legal(start, log) && After(start, log) == View()
    }

    constructor (read: set<MessageId>)
      ensures Valid() && log == [] && seen == server == read
    {
      selected, effect, timer, manualUnreadWhileOpen := None, None, false, None;
      autoReadNonce, seen, server, requests, sent := map[], read, read, map[], 0;
      start, log := INITIAL.(seen := read, server := read), [];
    }

    lemma IsReachable()
      requires Valid()
      ensures Reachable(View()) && ReadState.Numbered(View())
    {
      assert Reachable(View());
      ReachableIsNumbered(View());
    }

    /** Once the user has won and all requests about the message are answered, it is unread everywhere. */
    lemma WonIsUnread(m: MessageId)
      requires Valid() && Won(View(), m) && AllAnswered(View(), m)
      ensures m !in server && m !in seen
    {
    }

    ghost method Record(step: Step, before: State)
      requires Start(start) && Legal(start, log) && After(start, log) == before
      requires Enabled(before, step) && Apply(before, step) == View()
      modifies this`log
      ensures Valid() && log == old(log) + [step]
    {
      OneStep(before, step);
      LegalAppend(start, log, [step]);
      log := log + [step];
    }

    /** If the request is an automatic read, it will be taken back once it is answered. */
    ghost predicate Stale(r: Request)
      reads this
    {
      r.kind.AutoRead? ==> r.kind.nonce != NonceOf(View(), r.message)
    }

    /** Whatever automatic read of the message was current, the one in flight or the one waiting, is abandoned. */
    method BumpAutoReadNonce(m: MessageId) returns (next: nat)
      modifies this`autoReadNonce
      ensures View() == Bump(old(View()), m) && next == NonceOf(View(), m)
      ensures ReadState.Numbered(old(View())) ==>
                && (forall id | id in requests && requests[id].message == m && requests[id].kind.AutoRead? ::
                      requests[id].kind.nonce < next)
                && (effect.Some? && effect.value.message == m ==> effect.value.nonce < next)
    {
      next := NonceIn(autoReadNonce, m) + 1;
      autoReadNonce := autoReadNonce[m := next];
      assert ReadState.Numbered(old(View())) ==> forall id | id in requests :: RequestNumbered(old(View()), requests[id]);
    }

    method SendRequest(m: MessageId, kind: Kind)
      modifies this`requests, this`sent
      ensures View() == Send(old(View()), m, kind)
    {
      requests := requests[sent := Request(m, kind, false)];
      sent := sent + 1;
    }

    method RunCleanup()
      modifies this`effect, this`timer, this`autoReadNonce
      ensures View() == Cleanup(old(View()))
    {
      if effect.Some? {
        timer := false;
        var _ := BumpAutoReadNonce(effect.value.message);
        effect := None;
      }
    }

    method RunEffect(target: Option<MessageId>, arms: bool)
      requires effect.None? && !timer
      modifies this
      ensures View() == DoSelect(old(View()), target, arms) && log == old(log)
    {
      selected := target;
      if target.Some? {
        manualUnreadWhileOpen := None;
        if arms && target.value !in seen {
          var nonce := BumpAutoReadNonce(target.value);
          effect := Some(Effect(target.value, nonce));
          timer := true;
        }
      }
    }

    /** A new selection: the old effect's cleanup, then the new effect. An automatic read in flight is abandoned with its message. */
    method SelectMessage(target: Option<MessageId>, arms: bool)
      requires Valid() && target != selected
      modifies this
      ensures Valid() && log == old(log) + [Select(target, arms)]
      ensures selected == target && seen == old(seen) && server == old(server) && requests == old(requests)
      ensures if arms && target.Some? && target.value !in seen then AboutToRead(View(), target.value) else effect.None? && !timer
      ensures old(effect).Some? ==> forall id | id in requests && requests[id].message == old(effect).value.message :: Stale(requests[id])
      ensures forall m | Won(old(View()), m) && target != Some(m) :: Won(View(), m)
      ensures forall m, id, n | In(Current, old(View()), m, id, n) && target != Some(m) :: In(Abandoned, View(), m, id, n)
    {
      IsReachable();
      ghost var before := View();
      CleanupIsDoneOnce(before, target, arms);
      RunCleanup();
      RunEffect(target, arms);
      Record(Select(target, arms), before);
      forall m | Won(before, m) && target != Some(m)
        ensures Won(View(), m)
      {
        SelectKeepsWon(before, m, target, arms);
      }
      forall m, id, n | In(Current, before, m, id, n) && target != Some(m)
        ensures In(Abandoned, View(), m, id, n)
      {
        SelectMoves(Current, before, m, id, n, target, arms);
      }
    }

    /** The timer never undoes a win. If nothing stops it, the read it sends is current as long as the user stays. */
    method TimerFires()
      requires Valid() && timer && effect.Some?
      modifies this
      ensures Valid() && log == old(log) + [Fire]
      ensures !timer && server == old(server)
      ensures var m := old(effect).value.message;
              if AboutToRead(old(View()), m) then
                && seen == old(seen) + {m} && sent == old(sent) + 1
                && requests == old(requests)[old(sent) := Request(m, AutoRead(NonceOf(View(), m)), false)]
              else seen == old(seen) && requests == old(requests)
      ensures forall m | Won(old(View()), m) :: Won(View(), m)
      ensures forall m | AboutToRead(old(View()), m) && Calm(old(View()), m) ::
        In(Current, View(), m, old(sent), NonceOf(old(View()), m))
    {
      IsReachable();
      var e := effect.value;
      timer := false;
      if NonceIn(autoReadNonce, e.message) == e.nonce && manualUnreadWhileOpen != Some(e.message) && e.message !in seen {
        seen := seen + {e.message};
        SendRequest(e.message, AutoRead(e.nonce));
      }
      Record(Fire, old(View()));
      forall m | Won(old(View()), m)
        ensures Won(View(), m)
      {
        FireKeepsWon(old(View()), m);
      }
    }

    /** The user wins, whatever is in flight, unless a read of their own is still to be applied. */
    method HandleMarkAsUnread(m: MessageId)
      requires Valid()
      modifies this
      ensures Valid() && log == old(log) + [ClickUnread(m)]
      ensures seen == old(seen) - {m} && server == old(server) && selected == old(selected)
      ensures requests == old(requests)[old(sent) := Request(m, Unread, false)] && sent == old(sent) + 1
      ensures selected == Some(m) ==>
                !AboutToRead(View(), m) && forall id | id in requests && requests[id].message == m :: Stale(requests[id])
      ensures NoReadPending(old(View()), m) ==> Won(View(), m)
      ensures forall x | Won(old(View()), x) :: Won(View(), x)
    {
      IsReachable();
      if selected == Some(m) {
        manualUnreadWhileOpen := Some(m);
        var _ := BumpAutoReadNonce(m);
      }
      seen := seen - {m};
      SendRequest(m, Unread);
      Record(ClickUnread(m), old(View()));
      if NoReadPending(old(View()), m) {
        ClickWins(old(View()), m);
      }
      forall x | Won(old(View()), x)
        ensures Won(View(), x)
      {
        ClickUnreadKeepsWon(old(View()), x, m);
      }
    }

    /** Marking one message read leaves every other message's win alone. */
    method HandleMarkAsRead(m: MessageId)
      requires Valid()
      modifies this
      ensures Valid() && log == old(log) + [ClickRead(m)]
      ensures m in old(seen) ==> View() == old(View())
      ensures m !in old(seen) ==>
                && seen == old(seen) + {m} && server == old(server) && selected == old(selected)
                && requests == old(requests)[old(sent) := Request(m, Read, false)] && sent == old(sent) + 1
                && (selected == Some(m) ==> forall id | id in requests && requests[id].message == m :: Stale(requests[id]))
      ensures forall x | Won(old(View()), x) && x != m :: Won(View(), x)
    {
      IsReachable();
      if m !in seen {
        if selected == Some(m) {
          manualUnreadWhileOpen := None;
          var _ := BumpAutoReadNonce(m);
        }
        seen := seen + {m};
        SendRequest(m, Read);
      }
      Record(ClickRead(m), old(View()));
      forall x | Won(old(View()), x) && x != m
        ensures Won(View(), x)
      {
        ClickReadKeepsWon(old(View()), x, m);
      }
    }

    /** The server, not the client, takes this step; in whatever order it does, a win stands. */
    method RequestIsApplied(id: nat)
      requires Valid() && id in requests && !requests[id].applied
      modifies this`server, this`requests, this`log
      ensures Valid() && log == old(log) + [ServerApplies(id)]
      ensures var m := old(requests)[id].message;
              server == if old(requests)[id].kind.Unread? then old(server) - {m} else old(server) + {m}
      ensures forall m | Won(old(View()), m) :: Won(View(), m)
    {
      var r := requests[id];
      server := if r.kind == Unread then server - {r.message} else server + {r.message};
      requests := requests[id := r.(applied := true)];
      Record(ServerApplies(id), old(View()));
      forall m | Won(old(View()), m)
        ensures Won(View(), m)
      {
        ApplyKeepsWon(old(View()), m, id);
      }
    }

    /** An answer to a current read lets it stand, one to an abandoned read takes it back; a win stands in any case. */
    method AnswerArrives(id: nat)
      requires Valid() && id in requests && requests[id].applied
      modifies this`requests, this`sent, this`log
      ensures Valid() && log == old(log) + [Completes(id)]
      ensures var r := old(requests)[id];
              requests == if r.kind.AutoRead? && Stale(r) then (old(requests) - {id})[old(sent) := Request(r.message, Unread, false)]
                          else old(requests) - {id}
      ensures forall m | Won(old(View()), m) :: Won(View(), m)
      ensures forall m, n | In(Current, old(View()), m, id, n) :: In(Kept, View(), m, id, n)
      ensures forall m, n | In(Abandoned, old(View()), m, id, n) :: In(TakenBack, View(), m, id, n)
    {
      var r := requests[id];
      requests := requests - {id};
      if r.kind.AutoRead? && NonceIn(autoReadNonce, r.message) != r.kind.nonce {
        SendRequest(r.message, Unread);
      }
      Record(Completes(id), old(View()));
      forall m | Won(old(View()), m)
        ensures Won(View(), m)
      {
        CompleteKeepsWon(old(View()), m, id);
      }
      forall m, n | In(Current, old(View()), m, id, n)
        ensures In(Kept, View(), m, id, n)
      {
        AnswerMoves(Current, old(View()), m, id, n, id);
      }
      forall m, n | In(Abandoned, old(View()), m, id, n)
        ensures In(TakenBack, View(), m, id, n)
      {
        AnswerMoves(Abandoned, old(View()), m, id, n, id);
      }
    }
  }

  lemma CleanupIsDoneOnce(s: State, target: Option<MessageId>, arms: bool)
    requires s.timer ==> s.effect.Some?
    ensures Cleanup(s).effect.None? && !Cleanup(s).timer
    ensures DoSelect(Cleanup(s), target, arms) == DoSelect(s, target, arms)
  {
  }
}
