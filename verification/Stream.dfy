/** The reader of Claude's event stream, internal/claude/stream/parser.go, over events
    that are decoded already. */
module Streams {
  import opened Wrappers

  datatype Item = Item(kind: string, text: string)

  datatype Event =
    | Init(apiKeySource: string)
    | Assistant(content: seq<Item>)
    | RateLimitEvent(status: string, resetsAt: int, rateLimitType: string)
    | ResultEvent(isError: bool, subtype: string, message: string)
    | Skipped

  datatype Signal = Text(chunk: string) | UsageWarning | Final(event: Event)

  datatype Outcome =
    | Finished
    | ScanFailed
    | RateLimited(resetsAt: int, rateLimitType: string)
    | SessionMissing
    | ResultError(subtype: string, message: string)
    | Interrupted

  // ---- what single events mean ------------------------------------------------------

  predicate Contains(s: string, part: string) {
    exists i | 0 <= i <= |s| :: part <= s[i..]
  }

  /** ToLower on ASCII. */
  function Lower(s: string): string {
    seq(|s|, i requires 0 <= i < |s| => if 'A' <= s[i] <= 'Z' then (s[i] as int + 32) as char else s[i])
  }

  /** The non-empty texts of a turn. */
  function Texts(content: seq<Item>): seq<string> {
    if content == [] then []
    else
      var last := content[|content| - 1];
      Texts(content[..|content| - 1]) + if last.kind == "text" && last.text != "" then [last.text] else []
  }

  function Chunks(texts: seq<string>): (chunks: seq<Signal>)
    ensures |chunks| == |texts|
  {
    seq(|texts|, i requires 0 <= i < |texts| => Text(texts[i]))
  }

  /** What an event makes the parser send. */
  function Sends(e: Event): seq<Signal> {
    match e
    case Assistant(content) => Chunks(Texts(content))
    case RateLimitEvent(status, _, _) => if status == "allowed" then [UsageWarning] else []
    case ResultEvent(_, _, _) => [Final(e)]
    case _ => []
  }

  /** How an event ends the stream, if it does. */
  function Verdict(e: Event): Option<Outcome> {
    match e
    case Init(source) => if source != "" && source != "none" then Some(SessionMissing) else None
    case RateLimitEvent(status, resetsAt, kind) => if status != "allowed" then Some(RateLimited(resetsAt, kind)) else None
    case ResultEvent(isError, subtype, message) =>
      if !isError then Some(Finished)
      else if Contains(Lower(message), "rate limit") then Some(RateLimited(0, "unknown"))
      else if Contains(Lower(message), "please login") || Contains(Lower(message), "not logged in") then Some(SessionMissing)
      else Some(ResultError(subtype, message))
    case _ => None
  }

  // ---- what a whole stream means ----------------------------------------------------

  /** The events up to and with the first one that ends the stream. */
  function Heard(events: seq<Event>): seq<Event> {
    if events == [] then []
    else if Verdict(events[0]).Some? then [events[0]]
    else [events[0]] + Heard(events[1..])
  }

  function Sent(events: seq<Event>): seq<Signal> {
    if events == [] then [] else Sent(events[..|events| - 1]) + Sends(events[|events| - 1])
  }

  function Meaning(events: seq<Event>, scanFails: bool): Outcome {
    var heard := Heard(events);
    if heard != [] && Verdict(heard[|heard| - 1]).Some? then Verdict(heard[|heard| - 1]).value
    else if scanFails then ScanFailed
    else Finished
  }

  predicate Ended(events: seq<Event>) {
    events != [] && Verdict(events[|events| - 1]).Some?
  }

  /** Everything heard is a prefix, in which only the last event ends the stream. */
  lemma {:induction false} HeardIsPrefix(events: seq<Event>)
    ensures var heard := Heard(events);
            && heard <= events
            && (forall i | 0 <= i < |heard| - 1 :: Verdict(heard[i]).None?)
            && (heard == events || Ended(heard))
  {
    hide Verdict;
    if events != [] && Verdict(events[0]).None? {
      HeardIsPrefix(events[1..]);
      assert events == [events[0]] + events[1..];
    }
  }

  /** Once an event has ended the stream, whatever follows changes nothing. */
  lemma {:induction false} LaterEventsIgnored(events: seq<Event>, more: seq<Event>)
    requires exists i | 0 <= i < |events| :: Verdict(events[i]).Some?
    ensures Heard(events + more) == Heard(events)
    ensures forall a, b :: Meaning(events + more, a) == Meaning(events, b)
  {
    hide Verdict, Heard;
    SameHeard(events, more);
    HeardIsPrefix(events);
    var i :| 0 <= i < |events| && Verdict(events[i]).Some?;
    assert Heard(events) == events ==> i == |events| - 1;
  }

  lemma {:induction false} SameHeard(events: seq<Event>, more: seq<Event>)
    requires exists i | 0 <= i < |events| :: Verdict(events[i]).Some?
    ensures Heard(events + more) == Heard(events)
  {
    hide Verdict;
    var i :| 0 <= i < |events| && Verdict(events[i]).Some?;
    if Verdict(events[0]).None? {
      assert events[1..][i - 1] == events[i];
      SameHeard(events[1..], more);
      assert (events + more)[1..] == events[1..] + more;
    }
  }

  lemma {:induction false} SentAppend(a: seq<Event>, b: seq<Event>)
    ensures Sent(a + b) == Sent(a) + Sent(b)
  {
    hide Sends;
    if b == [] {
      assert a + b == a;
    } else {
      var n := |b| - 1;
      assert (a + b)[..|a + b| - 1] == a + b[..n];
      SentAppend(a, b[..n]);
    }
  }

  /** At most one result is sent, it is the last signal, and it is sent exactly when a
      result event ended the stream. */
  lemma OneResultAtTheEnd(events: seq<Event>)
    ensures var heard, sent := Heard(events), Sent(Heard(events));
            && (forall i | 0 <= i < |sent| - 1 :: !sent[i].Final?)
            && (sent != [] && sent[|sent| - 1].Final? <==> heard != [] && heard[|heard| - 1].ResultEvent?)
            && (heard != [] && heard[|heard| - 1].ResultEvent? ==> sent[|sent| - 1] == Final(heard[|heard| - 1]))
  {
    hide Heard, Verdict, Sends;
    var heard := Heard(events);
    HeardIsPrefix(events);
    if heard != [] {
      var n := |heard| - 1;
      forall i | 0 <= i < n
        ensures !heard[..n][i].ResultEvent?
      {
        GoesOn(heard[i]);
      }
      NoResultSent(heard[..n]);
      FinalSends(heard[n]);
    }
  }

  lemma GoesOn(e: Event)
    requires Verdict(e).None?
    ensures !e.ResultEvent?
  {
  }

  lemma FinalSends(e: Event)
    ensures if e.ResultEvent? then Sends(e) == [Final(e)] else forall i | 0 <= i < |Sends(e)| :: !Sends(e)[i].Final?
  {
  }

  lemma {:induction false} NoResultSent(events: seq<Event>)
    requires forall i | 0 <= i < |events| :: !events[i].ResultEvent?
    ensures forall i | 0 <= i < |Sent(events)| :: !Sent(events)[i].Final?
  {
    if events != [] {
      NoResultSent(events[..|events| - 1]);
    }
  }

  function ChunksOf(signals: seq<Signal>): seq<string> {
    if signals == [] then []
    else
      var last := signals[|signals| - 1];
      ChunksOf(signals[..|signals| - 1]) + if last.Text? then [last.chunk] else []
  }

  function AllTexts(events: seq<Event>): seq<string> {
    if events == [] then []
    else
      var last := events[|events| - 1];
      AllTexts(events[..|events| - 1]) + if last.Assistant? then Texts(last.content) else []
  }

  lemma {:induction false} ChunksOfAppend(a: seq<Signal>, b: seq<Signal>)
    ensures ChunksOf(a + b) == ChunksOf(a) + ChunksOf(b)
  {
    if b == [] {
      assert a + b == a;
    } else {
      var n := |b| - 1;
      assert (a + b)[..|a + b| - 1] == a + b[..n];
      ChunksOfAppend(a, b[..n]);
    }
  }

  lemma {:induction false} ChunksOfChunks(texts: seq<string>)
    ensures ChunksOf(Chunks(texts)) == texts
  {
    if texts != [] {
      var n := |texts| - 1;
      ChunksOfChunks(texts[..n]);
      assert Chunks(texts)[..n] == Chunks(texts[..n]);
    }
  }

  /** The chunks that are sent are the non-empty texts of the events heard, in order. */
  lemma {:induction false} TextsInOrder(events: seq<Event>)
    ensures ChunksOf(Sent(events)) == AllTexts(events)
  {
    if events != [] {
      var n := |events| - 1;
      TextsInOrder(events[..n]);
      ChunksOfAppend(Sent(events[..n]), Sends(events[n]));
      match events[n]
      case Assistant(content) => ChunksOfChunks(Texts(content));
      case RateLimitEvent(_, _, _) =>
      case ResultEvent(_, _, _) =>
      case _ =>
    }
  }

  /** How much is heard, told from the front. */
  lemma {:induction false} HeardUpTo(events: seq<Event>, i: nat)
    requires i <= |events| && forall k | 0 <= k < i :: Verdict(events[k]).None?
    ensures i < |events| && Verdict(events[i]).Some? ==> Heard(events) == events[..i + 1]
    ensures i == |events| ==> Heard(events) == events
    ensures i < |events| ==> i < |Heard(events)|
  {
    hide Verdict;
    if i > 0 {
      HeardUpTo(events[1..], i - 1);
      assert events == [events[0]] + events[1..];
      assert events[1..][..i - 1] == events[1..i];
    }
  }

  // ---- the same, told by the events' own fields ---------------------------------------

  predicate IsEnd(e: Event) {
    match e
    case Init(source) => source != "" && source != "none"
    case RateLimitEvent(status, _, _) => status != "allowed"
    case ResultEvent(_, _, _) => true
    case _ => false
  }

  predicate Mentions(message: string, words: string) {
    exists i | 0 <= i <= |message| :: Lower(message)[..i] + words <= Lower(message)
  }

  /** What an event that ends the stream makes of the session. */
  predicate SaysSo(e: Event, outcome: Outcome)
    requires IsEnd(e)
  {
    match e
    case Init(_) => outcome == SessionMissing
    case RateLimitEvent(_, resetsAt, rateLimitType) => outcome == RateLimited(resetsAt, rateLimitType)
    case ResultEvent(isError, subtype, message) =>
      if !isError then outcome == Finished
      else if Mentions(message, "rate limit") then outcome == RateLimited(0, "unknown")
      else if Mentions(message, "please login") || Mentions(message, "not logged in") then outcome == SessionMissing
      else outcome == ResultError(subtype, message)
  }

  function TextsTold(content: seq<Item>): seq<Signal> {
    if content == [] then []
    else (if content[0].kind == "text" && content[0].text != "" then [Text(content[0].text)] else []) + TextsTold(content[1..])
  }

  /** What is sent, from the first event on: the texts of a turn, one warning per allowed
      rate-limit event, and the result; nothing after the event that ends the stream. */
  function Told(events: seq<Event>): seq<Signal> {
    if events == [] then []
    else
      var e := events[0];
      (if e.Assistant? then TextsTold(e.content)
       else if e.RateLimitEvent? && e.status == "allowed" then [UsageWarning]
       else if e.ResultEvent? then [Final(e)]
       else [])
      + if IsEnd(e) then [] else Told(events[1..])
  }

  lemma ContainsMeans(s: string, part: string)
    ensures Contains(s, part) <==> exists i | 0 <= i <= |s| :: s[..i] + part <= s
  {
    forall i | 0 <= i <= |s|
      ensures part <= s[i..] <==> s[..i] + part <= s
    {
      SplitAt(s, part, i);
    }
  }

  lemma SplitAt(s: string, part: string, i: nat)
    requires i <= |s|
    ensures part <= s[i..] <==> s[..i] + part <= s
  {
    if part <= s[i..] {
      assert s == s[..i] + s[i..];
    }
    if s[..i] + part <= s {
      assert s[i..][..|part|] == part;
    }
  }

  /** Lower-casing only forgets the case of ASCII letters. */
  lemma LowerFolds(a: string, b: string)
    ensures |Lower(a)| == |a| && forall i | 0 <= i < |a| :: !('A' <= Lower(a)[i] <= 'Z')
    ensures Lower(a) == Lower(b) <==>
            |a| == |b| && forall i | 0 <= i < |a| ::
              a[i] == b[i] || ('A' <= a[i] <= 'Z' && b[i] as int == a[i] as int + 32) || ('A' <= b[i] <= 'Z' && a[i] as int == b[i] as int + 32)
  {
    if Lower(a) == Lower(b) {
      forall i | 0 <= i < |a|
        ensures a[i] == b[i] || ('A' <= a[i] <= 'Z' && b[i] as int == a[i] as int + 32) || ('A' <= b[i] <= 'Z' && a[i] as int == b[i] as int + 32)
      {
        assert Lower(a)[i] == Lower(b)[i];
      }
    } else if |a| == |b| {
      var i :| 0 <= i < |a| && Lower(a)[i] != Lower(b)[i];
    }
  }

  lemma VerdictMeans(e: Event)
    ensures Verdict(e).Some? <==> IsEnd(e)
    ensures IsEnd(e) ==> SaysSo(e, Verdict(e).value)
  {
    if e.ResultEvent? {
      MentionsMeans(e.message, "rate limit");
      MentionsMeans(e.message, "please login");
      MentionsMeans(e.message, "not logged in");
    }
    hide Contains, Mentions, Lower;
  }

  lemma MentionsMeans(message: string, words: string)
    ensures Contains(Lower(message), words) <==> Mentions(message, words)
  {
    ContainsMeans(Lower(message), words);
  }

  lemma {:induction false} TextsToldAre(content: seq<Item>)
    ensures TextsTold(content) == Chunks(Texts(content))
  {
    if content != [] {
      var c, rest := content[0], content[1..];
      TextsToldAre(rest);
      TextsFromFront(content);
      assert Chunks(Texts(content)) == (if c.kind == "text" && c.text != "" then [Text(c.text)] else []) + Chunks(Texts(rest));
    }
  }

  lemma {:induction false} TextsFromFront(content: seq<Item>)
    requires content != []
    ensures Texts(content) ==
              (if content[0].kind == "text" && content[0].text != "" then [content[0].text] else []) + Texts(content[1..])
  {
    var n := |content| - 1;
    if n > 0 {
      TextsFromFront(content[..n]);
      assert content[..n][1..] == content[1..][..n - 1];
    }
  }

  lemma {:induction false} ToldIsSent(events: seq<Event>)
    ensures Told(events) == Sent(Heard(events))
  {
    hide Verdict, IsEnd, Chunks, Texts, TextsTold;
    if events != [] {
      var e := events[0];
      VerdictMeans(e);
      ToldSends(e);
      ToldIsSent(events[1..]);
      SentAppend([e], Heard(events[1..]));
      assert [e][..0] == [] && Sent([e]) == Sends(e);
    }
  }

  lemma ToldSends(e: Event)
    ensures Sends(e) == if e.Assistant? then TextsTold(e.content)
                        else if e.RateLimitEvent? && e.status == "allowed" then [UsageWarning]
                        else if e.ResultEvent? then [Final(e)]
                        else []
  {
    if e.Assistant? {
      TextsToldAre(e.content);
    }
  }

  /** The first event that ends the stream decides the outcome; without one, the way the
      input ended does. */
  ghost predicate Decided(events: seq<Event>, scanFails: bool, outcome: Outcome) {
    && (forall i | FirstEnd(events, i) :: SaysSo(events[i], outcome))
    && ((forall i | 0 <= i < |events| :: !IsEnd(events[i])) ==> outcome == if scanFails then ScanFailed else Finished)
  }

  ghost predicate FirstEnd(events: seq<Event>, i: int) {
    0 <= i < |events| && IsEnd(events[i]) && forall k | 0 <= k < i :: !IsEnd(events[k])
  }

  lemma MeaningDecided(events: seq<Event>, scanFails: bool)
    ensures Decided(events, scanFails, Meaning(events, scanFails))
  {
    hide Verdict, IsEnd, Heard, SaysSo;
    forall i | 0 <= i < |events|
      ensures Verdict(events[i]).Some? <==> IsEnd(events[i])
      ensures IsEnd(events[i]) ==> SaysSo(events[i], Verdict(events[i]).value)
    {
      VerdictMeans(events[i]);
    }
    forall i | FirstEnd(events, i)
      ensures SaysSo(events[i], Meaning(events, scanFails))
    {
      HeardUpTo(events, i);
    }
    if forall i | 0 <= i < |events| :: !IsEnd(events[i]) {
      HeardUpTo(events, |events|);
    }
  }

  // ---- the loop ------------------------------------------------------------------------

  /** Sends one signal unless the context turns out to be cancelled. */
  method Send(signals: seq<Signal>, signal: Signal, patience: Option<nat>) returns (sent: seq<Signal>, left: Option<nat>, ok: bool)
    ensures ok <==> patience != Some(0)
    ensures sent == if ok then signals + [signal] else signals
    ensures left == if ok && patience.Some? then Some(patience.value - 1) else patience
  {
    ok := patience != Some(0);
    sent := if ok then signals + [signal] else signals;
    left := if ok && patience.Some? then Some(patience.value - 1) else patience;
  }

  /** Sends the non-empty texts of a turn, as far as the context allows. */
  method SendTexts(signals: seq<Signal>, content: seq<Item>, patience: Option<nat>) returns (sent: seq<Signal>, left: Option<nat>, ok: bool)
    ensures ok <==> patience.Some? ==> |Texts(content)| <= patience.value
    ensures ok ==> sent == signals + Chunks(Texts(content))
    ensures ok ==> left == if patience.Some? then Some(patience.value - |Texts(content)|) else None
    ensures sent <= signals + Chunks(Texts(content))
  {
    hide Texts, Chunks;
    sent, left, ok := signals, patience, true;
    NoTexts(signals, content[..0]);
    for i := 0 to |content|
      invariant sent == signals + Chunks(Texts(content[..i]))
      invariant patience.Some? ==> |Texts(content[..i])| <= patience.value
      invariant left == if patience.Some? then Some(patience.value - |Texts(content[..i])|) else None
    {
      var c := content[i];
      TextsStep(content, i);
      if c.kind == "text" && c.text != "" {
        TextsGrow(content, i + 1);
        ChunksGrow(signals, Texts(content[..i]), c.text, Texts(content));
        sent, left, ok := Send(sent, Text(c.text), left);
        if !ok {
          return;
        }
      }
    }
    assert content[..|content|] == content;
  }

  lemma NoTexts(signals: seq<Signal>, content: seq<Item>)
    requires content == []
    ensures Texts(content) == [] && signals + Chunks(Texts(content)) == signals
  {
  }

  lemma ChunksGrow(signals: seq<Signal>, texts: seq<string>, text: string, all: seq<string>)
    requires texts + [text] <= all
    ensures signals + Chunks(texts + [text]) == signals + Chunks(texts) + [Text(text)]
    ensures signals + Chunks(texts) <= signals + Chunks(all)
  {
    assert Chunks(texts + [text]) == Chunks(texts) + [Text(text)];
    assert Chunks(all)[..|texts|] == Chunks(texts);
  }

  lemma TextsStep(content: seq<Item>, i: nat)
    requires i < |content|
    ensures var c := content[i];
            Texts(content[..i + 1]) == if c.kind == "text" && c.text != "" then Texts(content[..i]) + [c.text] else Texts(content[..i])
  {
    assert content[..i + 1][..i] == content[..i];
  }

  lemma {:induction false} TextsGrow(content: seq<Item>, i: nat)
    requires i <= |content|
    ensures Texts(content[..i]) <= Texts(content)
    decreases |content|
  {
    if i < |content| {
      var n := |content| - 1;
      TextsGrow(content[..n], i);
      assert content[..n][..i] == content[..i];
    } else {
      assert content[..i] == content;
    }
  }

  /** Reads events until one ends the stream, the input ends or the context is cancelled.
      patience counts the looks at the context, one before each event and one at each
      send, that go well before it is found cancelled; None means it never is. */
  method ParseStream(events: seq<Event>, scanFails: bool, patience: Option<nat>) returns (signals: seq<Signal>, outcome: Outcome)
    ensures outcome == Interrupted <==> patience.Some? && patience.value < |Heard(events)| + |Sent(Heard(events))|
    ensures outcome != Interrupted ==> signals == Sent(Heard(events)) && outcome == Meaning(events, scanFails)
    ensures outcome == Interrupted ==> signals <= Sent(Heard(events))
    ensures outcome != Interrupted ==> signals == Told(events) && Decided(events, scanFails, outcome)
    ensures outcome == Interrupted ==> signals <= Told(events)
  {
    hide Verdict, Sends, Heard, Sent, Told, Decided;
    ToldIsSent(events);
    MeaningDecided(events, scanFails);
    signals := [];
    var left := patience;
    assert Sent(events[..0]) == [] by { NothingSent(events[..0]); }
    for i := 0 to |events|
      invariant signals == Sent(events[..i])
      invariant forall k | 0 <= k < i :: Verdict(events[k]).None?
      invariant patience.Some? ==> i + |signals| <= patience.value
      invariant left == if patience.Some? then Some(patience.value - i - |signals|) else None
    {
      var e := events[i];
      HeardUpTo(events, i);
      SentStep(events, i);
      HeardSends(events, i);
      if left == Some(0) {
        return signals, Interrupted;
      }
      left := if left.Some? then Some(left.value - 1) else None;
      var ok, verdict;
      signals, left, ok, verdict := Hear(signals, e, left);
      if !ok {
        return signals, Interrupted;
      }
      if verdict.Some? {
        return signals, verdict.value;
      }
    }
    HeardUpTo(events, |events|);
    assert events[..|events|] == events;
    outcome := if scanFails then ScanFailed else Finished;
  }

  /** One event: what it sends, as far as the context allows, and whether it ends the
      stream. */
  method Hear(signals: seq<Signal>, e: Event, patience: Option<nat>)
      returns (sent: seq<Signal>, left: Option<nat>, ok: bool, verdict: Option<Outcome>)
    ensures ok <==> (patience.Some? ==> |Sends(e)| <= patience.value)
    ensures ok ==> sent == signals + Sends(e) && verdict == Verdict(e)
    ensures ok ==> left == if patience.Some? then Some(patience.value - |Sends(e)|) else None
    ensures sent <= signals + Sends(e)
    ensures Verdict(e).Some? ==> Verdict(e).value != Interrupted
  {
    hide Contains, Lower, Texts, Chunks;
    sent, left, ok, verdict := signals, patience, true, None;
    match e
    case Init(source) =>
      if source != "" && source != "none" {
        verdict := Some(SessionMissing);
      }
    case Assistant(content) =>
      sent, left, ok := SendTexts(signals, content, patience);
    case RateLimitEvent(status, resetsAt, kind) =>
      if status != "allowed" {
        verdict := Some(RateLimited(resetsAt, kind));
      } else {
        sent, left, ok := Send(signals, UsageWarning, patience);
      }
    case ResultEvent(isError, subtype, message) =>
      sent, left, ok := Send(signals, Final(e), patience);
      var outcome := OfResult(isError, subtype, message);
      if ok {
        verdict := Some(outcome);
      }
    case Skipped =>
  }

  method OfResult(isError: bool, subtype: string, message: string) returns (outcome: Outcome)
    ensures Verdict(ResultEvent(isError, subtype, message)) == Some(outcome) && outcome != Interrupted
  {
    if !isError {
      return Finished;
    }
    if Contains(Lower(message), "rate limit") {
      return RateLimited(0, "unknown");
    }
    if Contains(Lower(message), "please login") || Contains(Lower(message), "not logged in") {
      return SessionMissing;
    }
    outcome := ResultError(subtype, message);
  }

  lemma NothingSent(events: seq<Event>)
    requires events == []
    ensures Sent(events) == []
  {
  }

  lemma SentStep(events: seq<Event>, i: nat)
    requires i < |events|
    ensures Sent(events[..i + 1]) == Sent(events[..i]) + Sends(events[i])
  {
    assert events[..i + 1][..i] == events[..i];
  }

  /** As long as nothing ended the stream, the next event is heard too. */
  lemma HeardSends(events: seq<Event>, i: nat)
    requires i < |events| && forall k | 0 <= k < i :: Verdict(events[k]).None?
    ensures Sent(events[..i + 1]) <= Sent(Heard(events)) && i + 1 <= |Heard(events)|
  {
    hide Verdict, Heard, Sent;
    HeardUpTo(events, i);
    HeardIsPrefix(events);
    var heard := Heard(events);
    assert heard == events[..i + 1] + heard[i + 1..];
    SentAppend(events[..i + 1], heard[i + 1..]);
  }
}
