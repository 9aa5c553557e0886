/** Push delivery: choosing the APNs environment, learning it, and dropping devices Apple reports gone. */
module Push {
  import opened Text
  import opened Outbox

  // ----- One token -----

  function AsciiLower(c: char): char {
    if 'A' <= c <= 'Z' then (c as int + 32) as char else c
  }

  predicate EqualsIgnoreCase(a: string, b: string) {
    |a| == |b| && forall i | 0 <= i < |a| :: AsciiLower(a[i]) == AsciiLower(b[i])
  }

  /** A request that failed in transport, or Apple's status and reason. */
  datatype Reply = Unreachable | Replied(status: nat, reason: string)

  predicate Accepted(reply: Reply) {
    reply.Replied? && reply.status < 400 && !Unregistered(reply)
  }

  predicate Unregistered(reply: Reply) {
    reply.Replied? && (reply.status == 410 || EqualsIgnoreCase(reply.reason, "Unregistered"))
  }

  predicate WrongEnvironment(reply: Reply) {
    reply.Replied? && reply.status >= 400 && EqualsIgnoreCase(reply.reason, "BadDeviceToken")
  }

  /** Which host a request goes to. */
  predicate UsesSandbox(environment: string) {
    environment == "sandbox"
  }

  predicate LooksSandbox(environment: string) {
    EqualsIgnoreCase(Trim(environment), "sandbox")
  }

  function AlternateEnvironment(environment: string): string {
    if LooksSandbox(environment) then "production" else "sandbox"
  }

  /** What one token answers at the production (`false`) and the sandbox (`true`) host. */
  type Hosts = bool -> Reply

  datatype Sending = Sending(reply: Reply, environment: string, requests: nat)

  /** One send of one token: the reply that counts, the environment that gave it, and how many requests it took. */
  function SendPreferring(environment: string, hosts: Hosts): Sending {
    var first := hosts(UsesSandbox(environment));
    if !WrongEnvironment(first) then Sending(first, environment, 1)
    else
      var other := AlternateEnvironment(environment);
      Sending(hosts(UsesSandbox(other)), other, 2)
  }

  lemma SandboxIsTrimmed()
    ensures Trim("sandbox") == "sandbox" && Trim("production") == "production"
  {
    assert !IsWhitespace('s') && !IsWhitespace('x') && !IsWhitespace('p') && !IsWhitespace('n');
  }

  /**
   * The second request reaches the other host exactly when the environment is spelled `sandbox` or does not
   * look like it at all: the host is chosen by the exact spelling, the alternative by a lenient one.
   */
  lemma RetryReachesTheOtherHost(environment: string)
    ensures UsesSandbox(AlternateEnvironment(environment)) != UsesSandbox(environment) <==>
            (LooksSandbox(environment) ==> environment == "sandbox")
  {
    SandboxIsTrimmed();
  }

  /** In any spelling but the exact one, both requests go to production, so a sandbox token never gets through. */
  lemma MisspeltSandboxIsStuck(environment: string, hosts: Hosts)
    requires LooksSandbox(environment) && environment != "sandbox" && WrongEnvironment(hosts(false))
    ensures SendPreferring(environment, hosts) == Sending(hosts(false), "production", 2)
  {
    RetryReachesTheOtherHost(environment);
  }

  /** `sandbox` in any capitals, with any whitespace around it. */
  lemma LooksSandboxExactlyWhen(environment: string)
    ensures LooksSandbox(environment) <==>
            exists before, word, after :: environment == before + word + after && IsBlank(before) && IsBlank(after) && EqualsIgnoreCase(word, "sandbox")
  {
    if LooksSandbox(environment) {
      var b, a := TrimIsExact(environment);
      var before, word, after := environment[..b], Trim(environment), environment[|environment| - a..];
      assert environment == before + word + after && IsBlank(before) && IsBlank(after);
    }
    if before, word, after :| environment == before + word + after && IsBlank(before) && IsBlank(after) && EqualsIgnoreCase(word, "sandbox") {
      assert AsciiLower(word[0]) == 's' && AsciiLower(word[6]) == 'x';
      TrimIs(before, word, after);
    }
  }

  predicate IsBlank(s: string) {
    forall i | 0 <= i < |s| :: IsWhitespace(s[i])
  }

  lemma {:induction false} TrimIs(before: string, word: string, after: string)
    requires IsBlank(before) && IsBlank(after) && word != [] && !IsWhitespace(word[0]) && !IsWhitespace(word[|word| - 1])
    ensures Trim(before + word + after) == word
    decreases |before|, |after|
  {
    var s := before + word + after;
    if before != [] {
      assert s[1..] == before[1..] + word + after;
      TrimIs(before[1..], word, after);
    } else if after != [] {
      var shorter := after[..|after| - 1];
      assert s[..|s| - 1] == before + word + shorter;
      TrimIs(before, word, shorter);
    } else {
      assert s == word;
    }
  }

  /** There is such a spelling. */
  lemma CapitalsMisspell()
    ensures LooksSandbox("Sandbox")
  {
    assert !IsWhitespace('S') && !IsWhitespace('x');
    assert Trim("Sandbox") == "Sandbox";
  }

  /** The environments the registration schema admits. */
  predicate Canonical(environment: string) {
    environment == "sandbox" || environment == "production"
  }

  function EnvironmentOf(sandbox: bool): string {
    if sandbox then "sandbox" else "production"
  }

  /** The token is valid at one host and unknown at the other. */
  predicate ValidOnlyAt(hosts: Hosts, sandbox: bool) {
    Accepted(hosts(sandbox)) && WrongEnvironment(hosts(!sandbox))
  }

  lemma ValidTokenGetsThrough(environment: string, hosts: Hosts, sandbox: bool)
    requires Canonical(environment) && ValidOnlyAt(hosts, sandbox)
    ensures var r := SendPreferring(environment, hosts);
            && Accepted(r.reply) && r.environment == EnvironmentOf(sandbox)
            && r.requests == if environment == EnvironmentOf(sandbox) then 1 else 2
  {
    RetryReachesTheOtherHost(environment);
    SandboxIsTrimmed();
    assert !LooksSandbox("production");
  }

  // ----- Learning the environment -----

  /** The stored row of one token of one user, and the sends that have read it and not finished. */
  datatype Learning = Learning(stored: Option<string>, reading: map<nat, string>)

  /** Each send meets hosts of its own: what they answer may change from one send to the next. */
  datatype Event =
    | StartSend(send: nat)
    | FinishSend(send: nat, hosts: Hosts, written: bool)
    | Register(environment: string)

  predicate CanHappen(l: Learning, e: Event) {
    match e
    case StartSend(send) => l.stored.Some? && send !in l.reading
    case FinishSend(send, _, _) => send in l.reading
    case Register(environment) => Canonical(environment)
  }

  /** A token reported gone loses its row; one accepted elsewhere gets that environment, if the row is still there. */
  function Happen(l: Learning, e: Event): Learning
    requires CanHappen(l, e)
  {
    match e
    case StartSend(send) => l.(reading := l.reading[send := l.stored.value])
    case FinishSend(send, hosts, written) =>
      var r := SendPreferring(l.reading[send], hosts);
      var stored :=
        if !written || l.stored.None? then l.stored
        else if Unregistered(r.reply) then None
        else if Accepted(r.reply) && r.environment != l.reading[send] then Some(r.environment)
        else l.stored;
      Learning(stored, l.reading - {send})
    case Register(environment) => if l.stored.Some? then l else l.(stored := Some(environment))
  }

  /** The token lives at one host: the other never accepts it, this one never calls it foreign, and neither calls it gone. Anything else may go wrong. */
  predicate LivesAt(hosts: Hosts, sandbox: bool) {
    && !Accepted(hosts(!sandbox)) && !WrongEnvironment(hosts(sandbox))
    && !Unregistered(hosts(true)) && !Unregistered(hosts(false))
  }

  predicate EventLivesAt(e: Event, sandbox: bool) {
    e.FinishSend? ==> LivesAt(e.hosts, sandbox)
  }

  /** A send that Apple accepted and whose write, if it makes one, works. */
  predicate Teaches(l: Learning, e: Event)
    requires CanHappen(l, e)
  {
    e.FinishSend? && e.written && Accepted(SendPreferring(l.reading[e.send], e.hosts).reply)
  }

  /** Everything stored or read is spelled canonically, and a send that read the valid environment read it from a row that still has it. */
  ghost predicate LearningInv(l: Learning, sandbox: bool) {
    && (l.stored.Some? ==> Canonical(l.stored.value))
    && (forall send | send in l.reading :: Canonical(l.reading[send]))
    && (forall send | send in l.reading && l.reading[send] == EnvironmentOf(sandbox) :: l.stored == Some(EnvironmentOf(sandbox)))
    && (l.reading != map[] ==> l.stored.Some?)
  }

  /** An accepted send was accepted where the token lives, and only the valid environment saves the second request. */
  lemma AcceptedWhereItLives(environment: string, hosts: Hosts, sandbox: bool)
    requires Canonical(environment) && LivesAt(hosts, sandbox)
    ensures var r := SendPreferring(environment, hosts);
            && !Unregistered(r.reply)
            && (Accepted(r.reply) ==> r.environment == EnvironmentOf(sandbox))
            && (environment == EnvironmentOf(sandbox) ==> r.requests == 1)
  {
    RetryReachesTheOtherHost(environment);
    SandboxIsTrimmed();
    assert !LooksSandbox("production");
  }

  lemma LearningStep(l: Learning, e: Event, sandbox: bool)
    requires LearningInv(l, sandbox) && CanHappen(l, e) && EventLivesAt(e, sandbox)
    ensures LearningInv(Happen(l, e), sandbox)
    ensures l.stored == Some(EnvironmentOf(sandbox)) ==> Happen(l, e).stored == l.stored
    ensures Teaches(l, e) ==> Happen(l, e).stored == Some(EnvironmentOf(sandbox))
  {
    if e.FinishSend? {
      AcceptedWhereItLives(l.reading[e.send], e.hosts, sandbox);
    }
  }

  ghost predicate CanHappenAll(l: Learning, events: seq<Event>)
    decreases |events|
  {
    events == [] || (CanHappen(l, events[0]) && CanHappenAll(Happen(l, events[0]), events[1..]))
  }

  ghost function HappenAll(l: Learning, events: seq<Event>): Learning
    requires CanHappenAll(l, events)
    decreases |events|
  {
    if events == [] then l else HappenAll(Happen(l, events[0]), events[1..])
  }

  /** Some send of the run is accepted and recorded. */
  ghost predicate TaughtIn(l: Learning, events: seq<Event>)
    requires CanHappenAll(l, events)
    decreases |events|
  {
    events != [] && (Teaches(l, events[0]) || TaughtIn(Happen(l, events[0]), events[1..]))
  }

  /**
   * Once a send to a token that lives in one environment was accepted and recorded, every later interleaving of sends
   * and re-registrations leaves that environment stored, whatever else the hosts answer, and every send that starts
   * from it needs one request.
   */
  lemma {:induction false} EnvironmentIsLearnedForGood(l: Learning, events: seq<Event>, sandbox: bool)
    requires LearningInv(l, sandbox) && CanHappenAll(l, events) && forall e | e in events :: EventLivesAt(e, sandbox)
    requires l.stored == Some(EnvironmentOf(sandbox)) || TaughtIn(l, events)
    ensures HappenAll(l, events).stored == Some(EnvironmentOf(sandbox))
    ensures forall hosts: Hosts | LivesAt(hosts, sandbox) ::
      SendPreferring(HappenAll(l, events).stored.value, hosts).requests == 1
    decreases |events|
  {
    if events == [] {
      forall hosts: Hosts | LivesAt(hosts, sandbox)
        ensures SendPreferring(EnvironmentOf(sandbox), hosts).requests == 1
      {
        AcceptedWhereItLives(EnvironmentOf(sandbox), hosts, sandbox);
      }
    } else {
      assert EventLivesAt(events[0], sandbox);
      LearningStep(l, events[0], sandbox);
      EnvironmentIsLearnedForGood(Happen(l, events[0]), events[1..], sandbox);
    }
  }

  // ----- The device table -----

  datatype Device = Device(user: nat, bundle: string, environment: string, enabled: bool)

  const CALENDAR_BUNDLES: set<string> := {"onl.solace.calendar", "onl.solace.calendar.dev"}
  const MAIL_BUNDLES: set<string> := {"onl.solace.mail", "onl.solace.mail.dev"}

  /** Which of the two apps shows a push of this kind. */
  predicate BundleReceivesKind(bundle: string, kind: string) {
    match kind
    case "event_reminder" => bundle in CALENDAR_BUNDLES
    case "new_mail" => bundle in MAIL_BUNDLES
    case _ => false
  }

  /** A push job as far as its dispatch depends on it; `test` marks the test pushes that go to every app. */
  datatype PushJob = PushJob(user: nat, kind: string, hasEvent: bool, test: bool, attempts: nat)

  /** What the outside world answers during one dispatch: the database reads, each token's hosts, and each device write. */
  datatype World = World(configured: bool, readsDevices: bool, readsReminder: bool, hosts: string -> Hosts, writes: string -> bool)

  type Devices = map<string, Device>

  function Registered(devices: Devices, job: PushJob): set<string> {
    set token | token in devices && devices[token].user == job.user && devices[token].enabled
  }

  function Targets(devices: Devices, job: PushJob): set<string> {
    set token | token in devices && token in Registered(devices, job) && (job.test || BundleReceivesKind(devices[token].bundle, job.kind))
  }

  function SendTo(devices: Devices, token: string, world: World): Sending
    requires token in devices
  {
    SendPreferring(devices[token].environment, world.hosts(token))
  }

  predicate Received(devices: Devices, token: string, world: World)
    requires token in devices
  {
    Accepted(SendTo(devices, token, world).reply)
  }

  predicate Removed(devices: Devices, token: string, world: World)
    requires token in devices
  {
    Unregistered(SendTo(devices, token, world).reply) && world.writes(token)
  }

  /** The row after the send: the environment that worked replaces a stored one that did not. */
  function RowAfter(devices: Devices, token: string, world: World): Device
    requires token in devices
  {
    if Received(devices, token, world) && world.writes(token)
    then devices[token].(environment := SendTo(devices, token, world).environment)
    else devices[token]
  }

  /** The table after sending to the given tokens, in whatever order. */
  function AfterSends(devices: Devices, tokens: set<string>, world: World): Devices {
    map token | token in devices && !(token in tokens && Removed(devices, token, world)) ::
      if token in tokens then RowAfter(devices, token, world) else devices[token]
  }

  /** Why a push job is not sent at all, if so. */
  function Refusal(devices: Devices, job: PushJob, world: World): Option<Answer> {
    if !world.configured then Some(GivesUp)
    else if !world.readsDevices then Some(Errs)
    else if Registered(devices, job) == {} then Some(if job.attempts >= 3 then GivesUp else Errs)
    else if Targets(devices, job) == {} then Some(GivesUp)
    else if job.kind == "new_mail" then None
    else if job.kind != "event_reminder" then Some(GivesUp)
    else if job.hasEvent && !job.test && !world.readsReminder then Some(Errs)
    else None
  }

  function PushAnswer(devices: Devices, job: PushJob, world: World): Answer {
    if Refusal(devices, job, world).Some? then Refusal(devices, job, world).value
    else if forall token | token in Targets(devices, job) :: Received(devices, token, world) then Delivered
    else Errs
  }

  class DeviceTable {
    var devices: Devices

    constructor ()
      ensures devices == map[]
    {
      devices := map[];
    }

    /** The token is the caller's afterwards. What the worker learned about it stays only if it was the caller's before. */
    method Register(user: nat, token: string, bundle: string, environment: string)
      modifies this
      ensures devices.Keys == old(devices).Keys + {token}
      ensures forall other | other in old(devices) && other != token :: devices[other] == old(devices)[other]
      ensures devices[token].user == user && devices[token].bundle == bundle && devices[token].enabled
      ensures devices[token].environment ==
              if token in old(devices) && old(devices)[token].user == user then old(devices)[token].environment else environment
      ensures Canonical(environment) && (token in old(devices) ==> old(devices)[token].user == user) ==>
                StoredFor(devices, token) == Happen(Learning(StoredFor(old(devices), token), map[]), Event.Register(environment)).stored
    {
      if token in devices && devices[token].user != user {
        devices := devices - {token};
      }
      if token in devices {
        devices := devices[token := devices[token].(bundle := bundle, enabled := true)];
      } else {
        devices := devices[token := Device(user, bundle, environment, true)];
      }
    }

    /**
     * One device of the list read earlier; its row may have changed or gone since. Only that row is touched: deleted
     * when Apple reports the token gone, moved when another environment worked.
     */
    method SendToDevice(token: string, snapshot: Device, world: World) returns (ok: bool)
      modifies this
      ensures ok == Accepted(SendingTo(snapshot, token, world).reply)
      ensures devices.Keys == old(devices).Keys - (if Gone(snapshot, token, world) then {token} else {})
      ensures forall other | other in devices && other != token :: devices[other] == old(devices)[other]
      ensures token in devices ==>
                devices[token] == if Moved(snapshot, token, world)
                                  then old(devices)[token].(environment := SendingTo(snapshot, token, world).environment)
                                  else old(devices)[token]
      ensures token in old(devices) && old(devices)[token] == snapshot ==> devices == AfterSends(old(devices), {token}, world)
      ensures StoredFor(devices, token) ==
              Happen(Learning(StoredFor(old(devices), token), map[0 := snapshot.environment]),
                     FinishSend(0, world.hosts(token), world.writes(token))).stored
    {
      var sending := SendPreferring(snapshot.environment, world.hosts(token));
      if sending.reply.Unreachable? {
        return false;
      }
      if Unregistered(sending.reply) {
        if world.writes(token) {
          devices := devices - {token};
        }
        return false;
      }
      if sending.reply.status >= 400 {
        return false;
      }
      if sending.environment != snapshot.environment && world.writes(token) && token in devices {
        devices := devices[token := devices[token].(environment := sending.environment)];
      }
      return true;
    }

    /** One turn of the loop: other sessions first, then the send. */
    method SendNext(snapshot: Devices, ghost done: set<string>, token: string, world: World, k: nat, others: Others) returns (ok: bool)
      requires token in snapshot && token !in done && SentTo(snapshot, done, world, others, devices)
      modifies this
      ensures ok == Received(snapshot, token, world)
      ensures SentTo(snapshot, done + {token}, world, others, devices)
    {
      devices := others(k, devices);
      ghost var disturbed := devices;
      SendsCommute(snapshot, done, token, world);
      ok := SendToDevice(token, snapshot[token], world);
      if Shrinking(others) {
        SendStillShrinks(snapshot, done, old(devices), disturbed, devices, token, world);
      }
    }

    /**
     * The loop over the devices read before it, with other sessions changing the table before every send. How many
     * devices took the push depends on the devices read alone.
     */
    method SendToAll(targets: set<string>, world: World, others: Others) returns (sent: nat)
      requires targets <= devices.Keys
      modifies this
      ensures sent == |Took(old(devices), targets, world)|
      ensures SentTo(old(devices), targets, world, others, devices)
    {
      var snapshot := devices;
      var rest, k: nat := targets, 0;
      sent := 0;
      ghost var done := {};
      NothingSentYet(devices, world, others);
      while rest != {}
        invariant rest !! done && rest + done == targets
        invariant sent == |Took(snapshot, done, world)|
        invariant SentTo(snapshot, done, world, others, devices)
        decreases |rest|
      {
        var token :| token in rest;
        var ok := SendNext(snapshot, done, token, world, k, others);
        OneMoreTook(snapshot, done, token, world);
        rest, k := rest - {token}, k + 1;
        done := done + {token};
        if ok {
          sent := sent + 1;
        }
      }
      assert done == targets;
    }

    /**
     * A push job goes to every device of its user that its kind is for, and counts as sent only if all of them took it.
     * Other sessions at work on the table in between do not change the answer.
     */
    method DispatchPush(job: PushJob, world: World, others: Others) returns (answer: Answer)
      modifies this
      ensures answer == PushAnswer(old(devices), job, world)
      ensures Quiet(others) ==> devices == TableAfter(old(devices), job, world)
      ensures Shrinking(others) ==> OnlyShrank(TableAfter(old(devices), job, world), devices)
    {
      if !world.configured {
        return GivesUp;
      }
      if !world.readsDevices {
        return Errs;
      }
      var found := Registered(devices, job);
      if found == {} {
        return if job.attempts >= 3 then GivesUp else Errs;
      }
      var targets := Targets(devices, job);
      if targets == {} {
        return GivesUp;
      }
      if job.kind == "event_reminder" {
        if job.hasEvent && !job.test && !world.readsReminder {
          return Errs;
        }
      } else if job.kind != "new_mail" {
        return GivesUp;
      }
      AllTook(devices, targets, world);
      var sent := SendToAll(targets, world, others);
      return if sent < |targets| then Errs else Delivered;
    }
  }

  /** The environment the table has for a token. */
  function StoredFor(devices: Devices, token: string): Option<string> {
    if token in devices then Some(devices[token].environment) else None
  }

  /** What other sessions do to the table before the n-th send. */
  type Others = (nat, Devices) -> Devices

  ghost predicate Quiet(others: Others) {
    forall k: nat, devices: Devices :: others(k, devices) == devices
  }

  /** Nobody adds a device or switches one on. */
  ghost predicate Shrinking(others: Others) {
    forall k: nat, devices: Devices :: OnlyShrank(devices, others(k, devices))
  }

  function SendingTo(snapshot: Device, token: string, world: World): Sending {
    SendPreferring(snapshot.environment, world.hosts(token))
  }

  predicate Gone(snapshot: Device, token: string, world: World) {
    Unregistered(SendingTo(snapshot, token, world).reply) && world.writes(token)
  }

  predicate Moved(snapshot: Device, token: string, world: World) {
    && Accepted(SendingTo(snapshot, token, world).reply) && world.writes(token)
    && SendingTo(snapshot, token, world).environment != snapshot.environment
  }

  /** The devices that took the push. */
  function Took(devices: Devices, tokens: set<string>, world: World): set<string> {
    set token | token in tokens && token in devices && Received(devices, token, world)
  }

  lemma OneMoreTook(devices: Devices, done: set<string>, token: string, world: World)
    requires token in devices && token !in done
    ensures |Took(devices, done + {token}, world)| == |Took(devices, done, world)| + if Received(devices, token, world) then 1 else 0
  {
    assert Took(devices, done + {token}, world)
        == Took(devices, done, world) + if Received(devices, token, world) then {token} else {};
  }

  lemma AllTook(devices: Devices, targets: set<string>, world: World)
    requires targets <= devices.Keys
    ensures |Took(devices, targets, world)| <= |targets|
    ensures |Took(devices, targets, world)| == |targets| <==> forall token | token in targets :: Received(devices, token, world)
  {
    var took := Took(devices, targets, world);
    assert |targets - took| == |targets| - |took|;
    assert forall token | token in targets :: token in targets - took <==> !Received(devices, token, world);
  }

  /** The table once the given devices were sent to: exactly that if nobody interferes, and no more than that if others only remove. */
  ghost predicate SentTo(snapshot: Devices, tokens: set<string>, world: World, others: Others, devices: Devices) {
    && (Quiet(others) ==> devices == AfterSends(snapshot, tokens, world))
    && (Shrinking(others) ==> OnlyShrank(AfterSends(snapshot, tokens, world), devices))
  }

  lemma NothingSentYet(devices: Devices, world: World, others: Others)
    ensures SentTo(devices, {}, world, others, devices) && Took(devices, {}, world) == {}
  {
    assert AfterSends(devices, {}, world) == devices;
  }

  lemma SendStillShrinks(snapshot: Devices, done: set<string>, before: Devices, disturbed: Devices, after: Devices, token: string, world: World)
    requires token in snapshot && token !in done
    requires OnlyShrank(AfterSends(snapshot, done, world), before) && OnlyShrank(before, disturbed)
    requires after.Keys == disturbed.Keys - (if Gone(snapshot[token], token, world) then {token} else {})
    requires forall other | other in after && other != token :: after[other] == disturbed[other]
    requires token in after ==> after[token] == disturbed[token].(environment := after[token].environment)
    ensures OnlyShrank(AfterSends(snapshot, done + {token}, world), after)
  {
  }

  /** Sends to different devices do not see each other. */
  lemma SendsCommute(devices: Devices, done: set<string>, token: string, world: World)
    requires token in devices && token !in done
    ensures token in AfterSends(devices, done, world) && AfterSends(devices, done, world)[token] == devices[token]
    ensures AfterSends(AfterSends(devices, done, world), {token}, world) == AfterSends(devices, done + {token}, world)
  {
  }

  // ----- Whose devices a push reaches -----

  /** A device of the job's user that is switched on. */
  predicate Mine(device: Device, job: PushJob) {
    device.user == job.user && device.enabled
  }

  /** The device's app shows pushes of the job's kind; a test push goes to every app. */
  predicate ForIt(device: Device, job: PushJob) {
    || job.test
    || (job.kind == "event_reminder" && (device.bundle == "onl.solace.calendar" || device.bundle == "onl.solace.calendar.dev"))
    || (job.kind == "new_mail" && (device.bundle == "onl.solace.mail" || device.bundle == "onl.solace.mail.dev"))
  }

  /** The request that counts succeeds: the first, or the one to the other environment if the first calls the token foreign. */
  predicate Takes(device: Device, hosts: Hosts) {
    var first := hosts(device.environment == "sandbox");
    var foreign := first.Replied? && first.status >= 400 && EqualsIgnoreCase(first.reason, "BadDeviceToken");
    var last := if foreign then hosts(!LooksSandbox(device.environment)) else first;
    last.Replied? && last.status < 400 && !EqualsIgnoreCase(last.reason, "Unregistered")
  }

  lemma TakesIsReceived(devices: Devices, token: string, world: World)
    requires token in devices
    ensures Received(devices, token, world) <==> Takes(devices[token], world.hosts(token))
  {
  }

  lemma TargetsAreMine(devices: Devices, job: PushJob)
    ensures forall token :: token in Registered(devices, job) <==> token in devices && Mine(devices[token], job)
    ensures forall token :: token in Targets(devices, job) <==> token in devices && Mine(devices[token], job) && ForIt(devices[token], job)
  {
  }

  /** A push counts as delivered exactly when the user has a device for it and every such device took it. */
  lemma DeliveredExactlyWhen(devices: Devices, job: PushJob, world: World)
    ensures PushAnswer(devices, job, world).Delivered? <==>
              && world.configured && world.readsDevices
              && (job.kind == "new_mail" || (job.kind == "event_reminder" && (job.hasEvent && !job.test ==> world.readsReminder)))
              && (exists token :: token in devices && Mine(devices[token], job) && ForIt(devices[token], job))
              && forall token | token in devices && Mine(devices[token], job) && ForIt(devices[token], job) ::
                   Takes(devices[token], world.hosts(token))
  {
    TargetsAreMine(devices, job);
    forall token | token in devices
      ensures Received(devices, token, world) <==> Takes(devices[token], world.hosts(token))
    {
      TakesIsReceived(devices, token, world);
    }
    if token :| token in devices && Mine(devices[token], job) && ForIt(devices[token], job) {
      assert token in Targets(devices, job) && token in Registered(devices, job);
    } else {
      assert Targets(devices, job) == {};
    }
  }

  /** A push is given up exactly when there is nowhere to send it, now or for good. */
  lemma GivenUpExactlyWhen(devices: Devices, job: PushJob, world: World)
    ensures var anyMine := exists token :: token in devices && Mine(devices[token], job);
            var anyForIt := exists token :: token in devices && Mine(devices[token], job) && ForIt(devices[token], job);
            PushAnswer(devices, job, world).GivesUp? <==>
              || !world.configured
              || (world.readsDevices &&
                  if !anyMine then job.attempts >= 3
                  else !anyForIt || (job.kind != "new_mail" && job.kind != "event_reminder"))
  {
    TargetsAreMine(devices, job);
    assert (exists token :: token in devices && Mine(devices[token], job)) <==> Registered(devices, job) != {} by {
      if token :| token in devices && Mine(devices[token], job) {
        assert token in Registered(devices, job);
      } else {
        assert Registered(devices, job) == {};
      }
    }
    assert (exists token :: token in devices && Mine(devices[token], job) && ForIt(devices[token], job)) <==> Targets(devices, job) != {} by {
      if token :| token in devices && Mine(devices[token], job) && ForIt(devices[token], job) {
        assert token in Targets(devices, job);
      } else {
        assert Targets(devices, job) == {};
      }
    }
  }

  /** The tables agree on the devices of the job's user that are switched on. */
  ghost predicate SameMine(a: Devices, b: Devices, job: PushJob) {
    forall token :: (token in a && Mine(a[token], job)) || (token in b && Mine(b[token], job)) ==>
      token in a && token in b && a[token] == b[token]
  }

  /** Other users' devices, devices switched off, and what their hosts say do not change the answer. */
  lemma OthersDoNotMatter(a: Devices, b: Devices, job: PushJob, w: World, v: World)
    requires SameMine(a, b, job)
    requires w.configured == v.configured && w.readsDevices == v.readsDevices && w.readsReminder == v.readsReminder
    requires forall token | token in a && Mine(a[token], job) :: w.hosts(token) == v.hosts(token)
    ensures PushAnswer(a, job, w) == PushAnswer(b, job, v)
  {
    DeliveredExactlyWhen(a, job, w);
    DeliveredExactlyWhen(b, job, v);
    GivenUpExactlyWhen(a, job, w);
    GivenUpExactlyWhen(b, job, v);
    assert forall token :: (token in a && Mine(a[token], job)) <==> (token in b && Mine(b[token], job));
  }

  /** Nor does the dispatch touch their rows, or those of the other app. */
  lemma OthersAreLeftAlone(devices: Devices, job: PushJob, world: World, token: string)
    requires token in devices && !(Mine(devices[token], job) && ForIt(devices[token], job))
    ensures token in TableAfter(devices, job, world) && TableAfter(devices, job, world)[token] == devices[token]
  {
    TargetsAreMine(devices, job);
  }

  /**
   * Of the devices it sends to, it removes exactly those reported gone, and it writes nothing but the environment of one
   * that took the push elsewhere.
   */
  lemma TargetsAreCorrected(devices: Devices, job: PushJob, world: World, token: string)
    requires token in devices && Refusal(devices, job, world).None? && Mine(devices[token], job) && ForIt(devices[token], job)
    ensures var sending := SendPreferring(devices[token].environment, world.hosts(token));
            var gone := sending.reply.Replied? && (sending.reply.status == 410 || EqualsIgnoreCase(sending.reply.reason, "Unregistered"));
            var after := TableAfter(devices, job, world);
            && (token !in after <==> gone && world.writes(token))
            && (token in after ==>
                  after[token] == devices[token].(environment :=
                    if Takes(devices[token], world.hosts(token)) && world.writes(token) then sending.environment
                    else devices[token].environment))
  {
    TargetsAreMine(devices, job);
    TakesIsReceived(devices, token, world);
  }

  // ----- Gone devices settle a push -----

  /** Nothing but removals, disablings and environment changes happened. */
  ghost predicate OnlyShrank(before: Devices, after: Devices) {
    forall token | token in after ::
      && token in before && after[token].user == before[token].user && after[token].bundle == before[token].bundle
      && (after[token].enabled ==> before[token].enabled)
  }

  /** Every device the job goes to either takes the push or is reported gone. */
  ghost predicate Decided(devices: Devices, job: PushJob, world: World, takes: set<string>) {
    forall token | token in Targets(devices, job) ::
      if token in takes then Received(devices, token, world) else Unregistered(SendTo(devices, token, world).reply)
  }

  /** The database answers. */
  ghost predicate Smoothly(world: World) {
    world.configured && world.readsDevices && world.readsReminder && forall token: string :: world.writes(token)
  }

  function TableAfter(devices: Devices, job: PushJob, world: World): Devices {
    if Refusal(devices, job, world).Some? then devices else AfterSends(devices, Targets(devices, job), world)
  }

  /** What `failures` failed tries have left: after one, no device that is gone; after two, no device at all. */
  ghost predicate Narrowed(devices: Devices, job: PushJob, takes: set<string>, failures: nat) {
    && (failures >= 1 ==> Registered(devices, job) == {} || forall token | token in Targets(devices, job) :: token in takes)
    && (failures >= 2 ==> Registered(devices, job) == {})
  }

  /** Each failed try narrows the devices further, and a third try does not fail. */
  lemma TryNarrows(devices: Devices, job: PushJob, world: World, takes: set<string>, failures: nat)
    requires Smoothly(world) && Decided(devices, job, world, takes) && Narrowed(devices, job, takes, failures)
    requires failures < job.attempts && PushAnswer(devices, job, world).Errs?
    ensures Narrowed(TableAfter(devices, job, world), job, takes, failures + 1)
    ensures failures < 2
  {
    var after := TableAfter(devices, job, world);
    if Refusal(devices, job, world).None? {
      forall token | token in Targets(after, job)
        ensures token in takes
      {
        assert token in Targets(devices, job);
      }
    }
  }

  lemma NarrowedStays(before: Devices, after: Devices, job: PushJob, takes: set<string>, failures: nat)
    requires Narrowed(before, job, takes, failures) && OnlyShrank(before, after)
    ensures Narrowed(after, job, takes, failures)
  {
    assert Registered(after, job) <= Registered(before, job);
    assert Targets(after, job) <= Targets(before, job);
  }

  /** The devices narrowed to do not depend on which try it is. */
  lemma NarrowedIgnoresAttempts(devices: Devices, job: PushJob, attempts: nat, takes: set<string>, failures: nat)
    requires Narrowed(devices, job, takes, failures)
    ensures Narrowed(devices, job.(attempts := attempts), takes, failures)
  {
    assert Registered(devices, job.(attempts := attempts)) == Registered(devices, job);
    assert Targets(devices, job.(attempts := attempts)) == Targets(devices, job);
  }
}
