/** One fetch against a rate-limited API: attempts, waits for the shared budget, and backoff. Seconds
    are reals; the clock and the jitter are read anew at each wait. */
module FetchBudget {
  import opened Domain

  /** What one attempt gets back. A header that is missing or does not parse is `None`. */
  datatype Reply =
    | TransportError
    | Response(status: int, remaining: Option<int>, reset: Option<int>, pageValid: bool)

  /** What the source does, in order. A rate wait is for a reset instant, read at `now`. */
  datatype Step =
    | Request(reply: Reply)
    | RateWait(reset: Option<int>, now: real, seconds: real)
    | BackoffWait(seconds: real)

  /** `Interrupted` is the process ending before the fetch does. */
  datatype Outcome = Page | GaveUp | Rejected(status: int) | BadCursor | Interrupted

  const LOGS_PATH := "/api/v1/logs"
  const RATE_LIMIT_WINDOW := 60.0
  const BACKOFF_CAP := 30.0

  /** Whether a cursor may be fetched: the token must not leave this org's log endpoint. */
  predicate OnLogsEndpoint(orgUrl: string, cursor: string) {
    orgUrl + LOGS_PATH + "?" <= cursor
  }

  /** Exactly the queries of the org's log endpoint may. */
  lemma OnLogsEndpointMeans(orgUrl: string, cursor: string)
    ensures OnLogsEndpoint(orgUrl, cursor) <==> exists query: string :: cursor == orgUrl + "/api/v1/logs?" + query
  {
    var front := orgUrl + LOGS_PATH + "?";
    assert front == orgUrl + "/api/v1/logs?";
    if front <= cursor {
      assert cursor == front + cursor[|front|..];
    }
  }

  // ----- reading a run of steps -----

  predicate Transient(reply: Reply) {
    reply.TransportError? || reply.status in {500, 502, 503, 504}
  }

  predicate Limited(reply: Reply) {
    reply.Response? && reply.status == 429
  }

  function Requests(steps: seq<Step>): seq<Reply> {
    if steps == [] then []
    else Requests(steps[..|steps| - 1]) + if steps[|steps| - 1].Request? then [steps[|steps| - 1].reply] else []
  }

  function CountTransient(replies: seq<Reply>): nat {
    if replies == [] then 0
    else CountTransient(replies[..|replies| - 1]) + if Transient(replies[|replies| - 1]) then 1 else 0
  }

  function CountLimited(replies: seq<Reply>): nat {
    if replies == [] then 0
    else CountLimited(replies[..|replies| - 1]) + if Limited(replies[|replies| - 1]) then 1 else 0
  }

  function TotalBackoff(steps: seq<Step>): real {
    if steps == [] then 0.0
    else TotalBackoff(steps[..|steps| - 1]) + if steps[|steps| - 1].BackoffWait? then steps[|steps| - 1].seconds else 0.0
  }

  /** What the last report said is left of the budget, forgotten once it has been waited for. */
  function Known(steps: seq<Step>, before: Option<int>): Option<int> {
    if steps == [] then before
    else
      match steps[|steps| - 1]
      case Request(Response(_, Some(left), Some(_), _)) => Some(left)
      case RateWait(_, _, _) => None
      case _ => Known(steps[..|steps| - 1], before)
  }

  /** When the last report said the budget is reset. */
  function LastReset(steps: seq<Step>, before: Option<int>): Option<int> {
    if steps == [] then before
    else
      match steps[|steps| - 1]
      case Request(Response(_, Some(_), Some(reset), _)) => Some(reset)
      case _ => LastReset(steps[..|steps| - 1], before)
  }

  predicate Low(known: Option<int>, reserve: int) {
    known.Some? && known.value <= reserve
  }

  function Pow2(n: nat): real {
    if n == 0 then 1.0 else 2.0 * Pow2(n - 1)
  }

  function Cap(failures: nat): real {
    if Pow2(failures) < BACKOFF_CAP then Pow2(failures) else BACKOFF_CAP
  }

  function BackoffBound(failures: nat): real {
    if failures == 0 then 0.0 else BackoffBound(failures - 1) + Cap(failures)
  }

  lemma {:induction false} PowersGrow(n: nat)
    ensures Pow2(n) >= 1.0 && (n >= 5 ==> Pow2(n) >= 32.0)
  {
    if n > 0 {
      PowersGrow(n - 1);
      if n == 5 {
        assert Pow2(1) == 2.0 && Pow2(2) == 4.0 && Pow2(3) == 8.0 && Pow2(4) == 16.0;
      }
    }
  }

  /** The cap doubles from two seconds, and from the fifth failure on is half a minute. */
  lemma CapMeans(n: nat)
    ensures Cap(0) == 1.0 && Cap(1) == 2.0 && Cap(2) == 4.0 && Cap(3) == 8.0 && Cap(4) == 16.0
    ensures n >= 5 ==> Cap(n) == 30.0
    ensures 1.0 <= Cap(n) <= 30.0
  {
    assert Pow2(1) == 2.0 && Pow2(2) == 4.0 && Pow2(3) == 8.0 && Pow2(4) == 16.0;
    PowersGrow(n);
  }

  // ----- which step may come next -----

  /** The wait for a reset: one at most two minutes ahead is waited out, a later one for two minutes, one
      that is past not at all, and one not given for a minute; then at most the jitter more. */
  predicate WaitedOut(reset: Option<int>, now: real, seconds: real, maxJitter: real) {
    var ahead := if reset.Some? then reset.value as real - now else 60.0;
    && (ahead <= 0.0 ==> 0.0 <= seconds <= maxJitter)
    && (0.0 <= ahead <= 120.0 ==> ahead <= seconds <= ahead + maxJitter)
    && (ahead >= 120.0 ==> 120.0 <= seconds <= 120.0 + maxJitter)
  }

  /** The step may follow those before it. A request follows no request, and no report of too little left
      that has not been waited for. A rate wait is for the reset that the 429 just received names, or, when
      too little is known to be left, for the one last reported. A backoff follows a transient failure,
      below the cap for the number there have been. */
  ghost predicate May(before: seq<Step>, s: Step, known: Option<int>, reset: Option<int>, reserve: int, maxJitter: real) {
    var asked := before != [] && before[|before| - 1].Request?;
    match s
    case Request(_) => !asked && !Low(Known(before, known), reserve)
    case RateWait(to, now, seconds) =>
      && WaitedOut(to, now, seconds, maxJitter)
      && (if asked then
            var reply := before[|before| - 1].reply; Limited(reply) && to == reply.reset
          else Low(Known(before, known), reserve) && to == LastReset(before, reset))
    case BackoffWait(seconds) =>
      && asked && Transient(before[|before| - 1].reply)
      && 0.0 <= seconds < Cap(CountTransient(Requests(before)))
  }

  ghost predicate Lawful(steps: seq<Step>, known: Option<int>, reset: Option<int>, reserve: int, maxJitter: real) {
    forall j :: 0 <= j < |steps| ==> May(steps[..j], steps[j], known, reset, reserve, maxJitter)
  }

  lemma LawfulStep(steps: seq<Step>, s: Step, known: Option<int>, reset: Option<int>, reserve: int, maxJitter: real)
    requires Lawful(steps, known, reset, reserve, maxJitter) && May(steps, s, known, reset, reserve, maxJitter)
    ensures Lawful(steps + [s], known, reset, reserve, maxJitter)
  {
    hide May;
    var longer := steps + [s];
    forall j | 0 <= j < |longer| ensures May(longer[..j], longer[j], known, reset, reserve, maxJitter) {
      if j < |steps| {
        assert longer[..j] == steps[..j] && longer[j] == steps[j];
      } else {
        assert longer[..j] == steps;
      }
    }
  }

  lemma MayWait(before: seq<Step>, s: Step, known: Option<int>, reset: Option<int>, reserve: int, maxJitter: real)
    requires before != [] ==> !before[|before| - 1].Request?
    requires s.RateWait? && WaitedOut(s.reset, s.now, s.seconds, maxJitter)
    requires Low(Known(before, known), reserve) && s.reset == LastReset(before, reset)
    ensures May(before, s, known, reset, reserve, maxJitter)
  {
  }

  lemma MayAsk(before: seq<Step>, reply: Reply, known: Option<int>, reset: Option<int>, reserve: int, maxJitter: real)
    requires before != [] ==> !before[|before| - 1].Request?
    requires !Low(Known(before, known), reserve)
    ensures May(before, Request(reply), known, reset, reserve, maxJitter)
  {
  }

  lemma LastStep(steps: seq<Step>, s: Step, known: Option<int>, reset: Option<int>)
    ensures Requests(steps + [s]) == Requests(steps) + if s.Request? then [s.reply] else []
    ensures TotalBackoff(steps + [s]) == TotalBackoff(steps) + if s.BackoffWait? then s.seconds else 0.0
    ensures Known(steps + [s], known) ==
      match s
      case Request(Response(_, Some(left), Some(_), _)) => Some(left)
      case RateWait(_, _, _) => None
      case _ => Known(steps, known)
    ensures LastReset(steps + [s], reset) ==
      match s
      case Request(Response(_, Some(_), Some(at), _)) => Some(at)
      case _ => LastReset(steps, reset)
  {
    assert (steps + [s])[..|steps|] == steps;
  }

  /** After waiting for the budget or not having to, asking is lawful. */
  lemma BudgetRespected(steps: seq<Step>, steps': seq<Step>, known: Option<int>, reset: Option<int>, reserve: int, maxJitter: real)
    requires Lawful(steps, known, reset, reserve, maxJitter) && (steps != [] ==> !steps[|steps| - 1].Request?)
    requires if Low(Known(steps, known), reserve) then
        |steps'| == |steps| + 1 && steps'[..|steps|] == steps && steps'[|steps|].RateWait? && steps'[|steps|].reset == LastReset(steps, reset)
        && WaitedOut(steps'[|steps|].reset, steps'[|steps|].now, steps'[|steps|].seconds, maxJitter)
      else steps' == steps
    ensures Lawful(steps', known, reset, reserve, maxJitter) && Requests(steps') == Requests(steps)
    ensures LastReset(steps', reset) == LastReset(steps, reset)
    ensures Known(steps', known) == if Low(Known(steps, known), reserve) then None else Known(steps, known)
    ensures steps' != [] ==> !steps'[|steps'| - 1].Request?
  {
    hide Lawful, WaitedOut, Known, LastReset, Requests, May;
    if Low(Known(steps, known), reserve) {
      var wait := steps'[|steps|];
      assert steps' == steps + [wait];
      MayWait(steps, wait, known, reset, reserve, maxJitter);
      LawfulStep(steps, wait, known, reset, reserve, maxJitter);
      LastStep(steps, wait, known, reset);
    }
  }

  lemma AskedLast(steps: seq<Step>, reply: Reply, known: Option<int>, reset: Option<int>, reserve: int, maxJitter: real)
    requires Lawful(steps, known, reset, reserve, maxJitter) && (steps != [] ==> !steps[|steps| - 1].Request?)
    requires !Low(Known(steps, known), reserve)
    ensures var steps' := steps + [Request(reply)];
      && Lawful(steps', known, reset, reserve, maxJitter) && Requests(steps') == Requests(steps) + [reply]
      && steps' != [] && steps'[|steps'| - 1] == Request(reply)
      && (if reply.Response? && reply.remaining.Some? && reply.reset.Some? then
            Known(steps', known) == reply.remaining && LastReset(steps', reset) == reply.reset
          else Known(steps', known) == Known(steps, known) && LastReset(steps', reset) == LastReset(steps, reset))
  {
    hide Lawful, Known, LastReset, Requests, May;
    MayAsk(steps, reply, known, reset, reserve, maxJitter);
    LawfulStep(steps, Request(reply), known, reset, reserve, maxJitter);
    LastStep(steps, Request(reply), known, reset);
  }

  lemma LastReply(replies: seq<Reply>, n: nat)
    requires n < |replies|
    ensures CountTransient(replies[..n + 1]) == CountTransient(replies[..n]) + if Transient(replies[n]) then 1 else 0
    ensures CountLimited(replies[..n + 1]) == CountLimited(replies[..n]) + if Limited(replies[n]) then 1 else 0
    ensures replies[..n + 1] == replies[..n] + [replies[n]]
  {
    assert replies[..n + 1][..n] == replies[..n];
  }

  /** All backoffs together stay below the sum of the caps. */
  lemma {:induction false} BackoffsBounded(steps: seq<Step>, known: Option<int>, reset: Option<int>, reserve: int, maxJitter: real)
    requires Lawful(steps, known, reset, reserve, maxJitter)
    ensures TotalBackoff(steps) <= BackoffBound(CountTransient(Requests(steps)))
    ensures steps != [] && steps[|steps| - 1].Request? && Transient(steps[|steps| - 1].reply) ==>
      TotalBackoff(steps) + Cap(CountTransient(Requests(steps))) <= BackoffBound(CountTransient(Requests(steps)))
    decreases |steps|
  {
    hide May, TotalBackoff, BackoffBound, CountTransient, Requests, Cap, Transient;
    if steps == [] {
      NoBackoff();
    } else {
      var n := |steps| - 1;
      assert steps == steps[..n] + [steps[n]];
      forall j | 0 <= j < n ensures May(steps[..n][..j], steps[..n][j], known, reset, reserve, maxJitter) {
        assert steps[..n][..j] == steps[..j];
      }
      BackoffsBounded(steps[..n], known, reset, reserve, maxJitter);
      assert May(steps[..n], steps[n], known, reset, reserve, maxJitter);
      OneMoreBackoff(steps[..n], steps[n], known, reset, reserve, maxJitter);
    }
  }

  lemma NoBackoff()
    ensures TotalBackoff([]) == 0.0 && BackoffBound(CountTransient(Requests([]))) == 0.0
  {
  }

  lemma OneMoreBackoff(before: seq<Step>, s: Step, known: Option<int>, reset: Option<int>, reserve: int, maxJitter: real)
    requires May(before, s, known, reset, reserve, maxJitter)
    requires TotalBackoff(before) <= BackoffBound(CountTransient(Requests(before)))
    requires before != [] && before[|before| - 1].Request? && Transient(before[|before| - 1].reply) ==>
      TotalBackoff(before) + Cap(CountTransient(Requests(before))) <= BackoffBound(CountTransient(Requests(before)))
    ensures var steps := before + [s];
      && TotalBackoff(steps) <= BackoffBound(CountTransient(Requests(steps)))
      && (s.Request? && Transient(s.reply) ==>
            TotalBackoff(steps) + Cap(CountTransient(Requests(steps))) <= BackoffBound(CountTransient(Requests(steps))))
  {
    hide TotalBackoff, Requests, Cap, Transient, WaitedOut, Low, Known, LastReset, CountTransient, BackoffBound;
    LastStep(before, s, known, reset);
    if s.Request? {
      OneMoreReply(Requests(before), s.reply);
    } else {
      assert Requests(before) + [] == Requests(before);
    }
  }

  lemma OneMoreReply(sent: seq<Reply>, reply: Reply)
    ensures BackoffBound(CountTransient(sent + [reply])) ==
      BackoffBound(CountTransient(sent)) + if Transient(reply) then Cap(CountTransient(sent + [reply])) else 0.0
    ensures Cap(CountTransient(sent + [reply])) >= 1.0
  {
    hide Cap, Transient;
    assert (sent + [reply])[..|sent|] == sent;
    CapMeans(CountTransient(sent + [reply]));
  }

  // ----- how a fetch ends -----

  /** What is asked again: a broken connection, a 429, and four of the server errors. */
  predicate Again(reply: Reply) {
    reply.TransportError? || reply.status in {429, 500, 502, 503, 504}
  }

  /** How a fetch ends, by what it is answered: replies to ask again after, but for the last. A page is a
      200 with a valid body; any other answer not to ask again after is raised, with its status; giving up
      takes `maxAttempts` transient failures, at least one, and 429s never count towards them. */
  ghost predicate Concludes(outcome: Outcome, sent: seq<Reply>, replies: seq<Reply>, maxAttempts: int) {
    && sent <= replies
    && (forall i :: 0 <= i < |sent| - 1 ==> Again(sent[i]))
    && |sent| == CountLimited(sent) + CountTransient(sent) + (if outcome.Page? || outcome.Rejected? then 1 else 0)
    && (if outcome.GaveUp? then CountTransient(sent) == if maxAttempts > 1 then maxAttempts else 1
        else CountTransient(sent) > 0 ==> CountTransient(sent) < maxAttempts)
    && (if sent == [] then outcome.BadCursor? || (outcome.Interrupted? && replies == [])
        else
          var last := sent[|sent| - 1];
          match outcome
          case Page => last.Response? && last.status == 200 && last.pageValid
          case Rejected(status) => last.Response? && last.status == status && !Again(last) && !(status == 200 && last.pageValid)
          case GaveUp => Again(last) && !Limited(last)
          case Interrupted => Again(last) && sent == replies
          case BadCursor => false)
  }

  lemma {:induction false} CountsGrow(replies: seq<Reply>, n: nat)
    requires n <= |replies|
    ensures CountTransient(replies[..n]) <= CountTransient(replies)
    ensures n < |replies| && Transient(replies[|replies| - 1]) ==> CountTransient(replies[..n]) < CountTransient(replies)
    decreases |replies|
  {
    if n == |replies| {
      assert replies[..n] == replies;
    } else {
      var m := |replies| - 1;
      CountsGrow(replies[..m], n);
      assert replies[..m][..n] == replies[..n];
    }
  }

  lemma NotShorter(a: Outcome, sent: seq<Reply>, b: Outcome, more: seq<Reply>, replies: seq<Reply>, maxAttempts: int)
    requires Concludes(a, sent, replies, maxAttempts) && Concludes(b, more, replies, maxAttempts)
    requires !a.BadCursor? && !b.BadCursor?
    ensures |sent| >= |more|
  {
    if |sent| < |more| {
      assert sent == more[..|sent|];
      assert sent != [] ==> sent[|sent| - 1] == more[|sent| - 1];
      CountsGrow(more, |sent|);
    }
  }

  /** What is answered decides how often is asked, and what comes of it. */
  lemma RepliesDecide(a: Outcome, sent: seq<Reply>, b: Outcome, more: seq<Reply>, replies: seq<Reply>, maxAttempts: int)
    requires Concludes(a, sent, replies, maxAttempts) && Concludes(b, more, replies, maxAttempts)
    requires !a.BadCursor? && !b.BadCursor?
    ensures sent == more && a == b
  {
    NotShorter(a, sent, b, more, replies, maxAttempts);
    NotShorter(b, more, a, sent, replies, maxAttempts);
    assert sent == replies[..|sent|] && more == replies[..|more|];
  }

  lemma Concluding(outcome: Outcome, replies: seq<Reply>, n: nat, maxAttempts: int)
    requires n < |replies| && (forall i :: 0 <= i < n ==> Again(replies[i]))
    requires n == CountLimited(replies[..n]) + CountTransient(replies[..n])
    requires CountTransient(replies[..n]) > 0 ==> CountTransient(replies[..n]) < maxAttempts
    requires var reply := replies[n];
      match outcome
      case Page => reply.Response? && reply.status == 200 && reply.pageValid
      case GaveUp => Transient(reply) && CountTransient(replies[..n]) + 1 >= maxAttempts
      case Rejected(status) => reply.Response? && reply.status == status && !Again(reply) && !(status == 200 && reply.pageValid)
      case _ => false
    ensures Concludes(outcome, replies[..n + 1], replies, maxAttempts)
  {
    LastReply(replies, n);
  }

  /** A fraction of a wait. */
  function Scaled(j: real, most: real): (r: real)
    requires 0.0 <= j < 1.0 && most >= 0.0
    ensures 0.0 <= r && r <= most && (most > 0.0 ==> r < most)
  {
    assert j * most + (1.0 - j) * most == most;
    assert (1.0 - j) * most >= 0.0 && (most > 0.0 ==> (1.0 - j) * most > 0.0);
    j * most
  }

  class OktaSource {
    const orgUrl: string
    const reserve: int
    const maxAttempts: int
    const maxJitter: real
    var remaining: Option<int>
    var resetAt: Option<int>

    constructor (orgUrl: string, reserve: int, maxAttempts: int, maxJitter: real)
      requires maxJitter >= 0.0
      ensures this.orgUrl == orgUrl && this.reserve == reserve && this.maxAttempts == maxAttempts
      ensures this.maxJitter == maxJitter && remaining == None && resetAt == None
    {
      this.orgUrl, this.reserve, this.maxAttempts, this.maxJitter := orgUrl, reserve, maxAttempts, maxJitter;
      remaining, resetAt := None, None;
    }

    /** Any number at least 0 and less than 1. */
    method Jitter() returns (j: real)
      ensures 0.0 <= j < 1.0
    {
      var any: real := *;
      j := if 0.0 <= any < 1.0 then any else 0.0;
    }

    /** Seconds until a reset, as the clock reads `now`. */
    method Until(reset: Option<int>) returns (seconds: real, now: real)
      requires maxJitter >= 0.0
      ensures WaitedOut(reset, now, seconds, maxJitter)
    {
      now := *;
      var wait := if reset.None? then RATE_LIMIT_WINDOW else reset.value as real - now;
      var positive := if wait > 0.0 then wait else 0.0;
      var bounded := if positive < 2.0 * RATE_LIMIT_WINDOW then positive else 2.0 * RATE_LIMIT_WINDOW;
      var j := Jitter();
      seconds := bounded + Scaled(j, maxJitter);
    }

    /** Full jitter below the cap for this many failures. */
    method Backoff(failures: nat) returns (seconds: real)
      ensures 0.0 <= seconds < Cap(failures)
    {
      CapMeans(failures);
      var j := Jitter();
      seconds := Scaled(j, Cap(failures));
    }

    /** What the source has done so far in a fetch is lawful, and it knows what it was told. */
    ghost predicate Keeps(steps: seq<Step>, sent: seq<Reply>, known: Option<int>, reset: Option<int>)
      reads this
    {
      && Lawful(steps, known, reset, reserve, maxJitter) && Requests(steps) == sent
      && remaining == Known(steps, known) && resetAt == LastReset(steps, reset)
    }

    /** Waits out a transient failure that is not the last allowed. */
    method PauseFor(failures: nat, steps: seq<Step>, ghost sent: seq<Reply>, ghost known: Option<int>, ghost reset: Option<int>)
      returns (steps': seq<Step>)
      requires Keeps(steps, sent, known, reset) && failures == CountTransient(sent)
      requires steps != [] && steps[|steps| - 1].Request? && Transient(steps[|steps| - 1].reply)
      ensures Keeps(steps', sent, known, reset) && steps' != [] && steps'[|steps'| - 1].BackoffWait?
    {
      hide Lawful, CountTransient, Cap, Transient;
      var pause := Backoff(failures);
      LawfulStep(steps, BackoffWait(pause), known, reset, reserve, maxJitter);
      LastStep(steps, BackoffWait(pause), known, reset);
      steps' := steps + [BackoffWait(pause)];
    }

    /** Takes the report when both headers are there. */
    method ObserveBudget(reply: Reply)
      requires reply.Response?
      modifies this
      ensures remaining == if reply.remaining.Some? && reply.reset.Some? then reply.remaining else old(remaining)
      ensures resetAt == if reply.remaining.Some? && reply.reset.Some? then reply.reset else old(resetAt)
    {
      if reply.remaining.Some? && reply.reset.Some? {
        remaining, resetAt := reply.remaining, reply.reset;
      }
    }

    /** Waits for the last reported reset when too little is known to be left, and forgets the report. */
    method RespectBudget(steps: seq<Step>) returns (steps': seq<Step>)
      requires maxJitter >= 0.0
      modifies this
      ensures resetAt == old(resetAt)
      ensures if old(remaining).Some? && old(remaining).value <= reserve then
          |steps'| == |steps| + 1 && steps'[..|steps|] == steps && remaining == None
          && steps'[|steps|].RateWait? && steps'[|steps|].reset == resetAt
          && WaitedOut(resetAt, steps'[|steps|].now, steps'[|steps|].seconds, maxJitter)
        else steps' == steps && remaining == old(remaining)
    {
      steps' := steps;
      if remaining.None? || remaining.value > reserve {
        return;
      }
      remaining := None;
      var wait, now := Until(resetAt);
      steps' := steps + [RateWait(resetAt, now, wait)];
    }

    /** One attempt: waits for the budget if it must, asks, and takes the report of the answer. */
    method Ask(reply: Reply, steps: seq<Step>, ghost sent: seq<Reply>, ghost known: Option<int>, ghost reset: Option<int>)
      returns (steps': seq<Step>)
      requires Keeps(steps, sent, known, reset) && maxJitter >= 0.0
      requires steps != [] ==> !steps[|steps| - 1].Request?
      modifies this
      ensures Keeps(steps', sent + [reply], known, reset)
      ensures steps' != [] && steps'[|steps'| - 1] == Request(reply)
    {
      hide Lawful, WaitedOut, CountTransient, Cap, Transient, Known, LastReset, Requests, May;
      var ready := RespectBudget(steps);
      BudgetRespected(steps, ready, known, reset, reserve, maxJitter);
      AskedLast(ready, reply, known, reset, reserve, maxJitter);
      steps' := ready + [Request(reply)];
      if reply.Response? {
        ObserveBudget(reply);
      }
    }

    /** Waits for the reset a 429 names. */
    method PauseForReset(reply: Reply, steps: seq<Step>, ghost sent: seq<Reply>, ghost known: Option<int>, ghost reset: Option<int>)
      returns (steps': seq<Step>)
      requires Keeps(steps, sent, known, reset) && maxJitter >= 0.0 && Limited(reply)
      requires steps != [] && steps[|steps| - 1] == Request(reply)
      modifies this
      ensures Keeps(steps', sent, known, reset) && steps' != [] && steps'[|steps'| - 1].RateWait?
    {
      hide Lawful, WaitedOut, Known, LastReset, Requests;
      remaining := None;
      var pause, now := Until(reply.reset);
      var wait := RateWait(reply.reset, now, pause);
      LawfulStep(steps, wait, known, reset, reserve, maxJitter);
      LastStep(steps, wait, known, reset);
      steps' := steps + [wait];
    }

    /** Gets the page at a cursor. `replies` is what the network answers, attempt by attempt, for as
        long as the process lives; `steps` is what the source did. */
    method Fetch(cursor: string, replies: seq<Reply>) returns (outcome: Outcome, steps: seq<Step>)
      requires maxJitter >= 0.0
      modifies this
      ensures outcome.BadCursor? <==> !OnLogsEndpoint(orgUrl, cursor)
      ensures outcome.BadCursor? ==> steps == []
      // Requests go out one per reply, in order.
      ensures Concludes(outcome, Requests(steps), replies, maxAttempts)
      ensures Lawful(steps, old(remaining), old(resetAt), reserve, maxJitter)
      ensures remaining == Known(steps, old(remaining)) && resetAt == LastReset(steps, old(resetAt))
      ensures TotalBackoff(steps) <= BackoffBound(CountTransient(Requests(steps)))
    {
      ghost var known, reset := remaining, resetAt;
      outcome, steps := Try(cursor, replies, known, reset);
      BackoffsBounded(steps, known, reset, reserve, maxJitter);
    }

    /** The loop of attempts. */
    method Try(cursor: string, replies: seq<Reply>, ghost known: Option<int>, ghost reset: Option<int>)
      returns (outcome: Outcome, steps: seq<Step>)
      requires maxJitter >= 0.0 && known == remaining && reset == resetAt
      modifies this
      ensures outcome.BadCursor? <==> !OnLogsEndpoint(orgUrl, cursor)
      ensures outcome.BadCursor? ==> steps == []
      ensures Concludes(outcome, Requests(steps), replies, maxAttempts) && Keeps(steps, Requests(steps), known, reset)
    {
      hide Requests, CountTransient, CountLimited, Lawful, Known, LastReset, Concludes, OnLogsEndpoint;
      steps := [];
      Starts(known, reset, replies, maxAttempts);
      if !OnLogsEndpoint(orgUrl, cursor) {
        return BadCursor, steps;
      }
      var failures, n := 0, 0;
      assert replies[..0] == [];
      while n < |replies|
        invariant 0 <= n <= |replies| && 0 <= failures
        invariant Keeps(steps, replies[..n], known, reset)
        invariant forall i :: 0 <= i < n ==> Again(replies[i])
        invariant failures == CountTransient(replies[..n]) && n == CountLimited(replies[..n]) + failures
        invariant failures > 0 ==> failures < maxAttempts
        invariant steps != [] ==> !steps[|steps| - 1].Request?
      {
        var reply := replies[n];
        LastReply(replies, n);
        steps := Ask(reply, steps, replies[..n], known, reset);
        n := n + 1;
        if reply.TransportError? {
          failures := failures + 1;
          if failures >= maxAttempts {
            Concluding(GaveUp, replies, n - 1, maxAttempts);
            return GaveUp, steps;
          }
          steps := PauseFor(failures, steps, replies[..n], known, reset);
          continue;
        }
        if reply.status == 429 {
          steps := PauseForReset(reply, steps, replies[..n], known, reset);
          continue;
        }
        if reply.status in {500, 502, 503, 504} {
          failures := failures + 1;
          if failures >= maxAttempts {
            Concluding(GaveUp, replies, n - 1, maxAttempts);
            return GaveUp, steps;
          }
          steps := PauseFor(failures, steps, replies[..n], known, reset);
          continue;
        }
        if reply.status != 200 {
          Concluding(Rejected(reply.status), replies, n - 1, maxAttempts);
          return Rejected(reply.status), steps;
        }
        if !reply.pageValid {
          Concluding(Rejected(reply.status), replies, n - 1, maxAttempts);
          return Rejected(reply.status), steps;
        }
        Concluding(Page, replies, n - 1, maxAttempts);
        return Page, steps;
      }
      assert replies[..n] == replies;
      CutShort(replies, maxAttempts);
      outcome := Interrupted;
    }
  }

  lemma Starts(known: Option<int>, reset: Option<int>, replies: seq<Reply>, maxAttempts: int)
    ensures Known([], known) == known && LastReset([], reset) == reset && Requests([]) == []
    ensures CountTransient([]) == 0 && CountLimited([]) == 0 && Concludes(BadCursor, [], replies, maxAttempts)
    ensures forall reserve, maxJitter :: Lawful([], known, reset, reserve, maxJitter)
  {
  }

  lemma CutShort(replies: seq<Reply>, maxAttempts: int)
    requires |replies| == CountLimited(replies) + CountTransient(replies) && forall i :: 0 <= i < |replies| ==> Again(replies[i])
    requires CountTransient(replies) > 0 ==> CountTransient(replies) < maxAttempts
    ensures Concludes(Interrupted, replies, replies, maxAttempts)
  {
  }
}
