/** The session fold of cmd/crawl/sessions.py over a crawl's event log. Times are relative to the
    first event. A missing key (open_at.pop) or an empty log ends the script: Err. */
module CrawlSessions {

  import opened Wrappers

  /** A log line: an answer ("pong", or "up"), a "down", a sweep, or anything else. */
  datatype Line = Answer(id: nat, t: real, pong: bool) | Down(id: nat, t: real) | Sweep(t: real) | Other(t: real)

  /** A session; its end is missing while the node is still up. */
  datatype Session = Session(id: nat, start: real, end: Option<real>)

  type Log = seq<Line>

  // ------------------------------------------------------------- sessions by their meaning

  /** The answers of one node, in the order of the log. */
  function Answers(log: Log, id: nat): seq<real> {
    if log == [] then []
    else Answers(Front(log), id) + if Last(log).Answer? && Last(log).id == id then [Last(log).t] else []
  }

  function Front<T>(s: seq<T>): seq<T> requires s != [] { s[..|s| - 1] }

  function Last<T>(s: seq<T>): T requires s != [] { s[|s| - 1] }

  /** `bs` cuts `ts` into its maximal runs of answers at most `gap` apart. */
  ghost predicate MaximalRuns(ts: seq<real>, gap: real, bs: seq<seq<real>>) {
    && Concat(bs) == ts
    && (forall b :: 0 <= b < |bs| ==> bs[b] != [] && Run(bs[b], gap))
    && (forall b :: 0 < b < |bs| ==> bs[b][0] - Last(bs[b - 1]) > gap)
  }

  ghost predicate Run(b: seq<real>, gap: real) {
    forall i :: 0 < i < |b| ==> b[i] - b[i - 1] <= gap
  }

  ghost function Concat(bs: seq<seq<real>>): seq<real> {
    if bs == [] then [] else Concat(Front(bs)) + Last(bs)
  }

  /** The runs, each as its first and last answer. */
  ghost function Spans(id: nat, bs: seq<seq<real>>): (s: seq<Session>)
    requires forall b :: 0 <= b < |bs| ==> bs[b] != []
    ensures |s| == |bs| && forall b :: 0 <= b < |bs| ==> s[b] == Session(id, bs[b][0], Some(Last(bs[b])))
  {
    seq(|bs|, b requires 0 <= b < |bs| => Session(id, bs[b][0], Some(Last(bs[b]))))
  }

  function Of(ss: seq<Session>, id: nat): seq<Session> {
    if ss == [] then [] else Of(Front(ss), id) + if Last(ss).id == id then [Last(ss)] else []
  }

  lemma OfAppend(ss: seq<Session>, s: Session, id: nat)
    ensures Of(ss + [s], id) == if s.id == id then Of(ss, id) + [s] else Of(ss, id)
  {
    assert Front(ss + [s]) == ss;
  }

  lemma AnswersAppend(log: Log, l: Line, id: nat)
    ensures Answers(log + [l], id) == if l.Answer? && l.id == id then Answers(log, id) + [l.t] else Answers(log, id)
  {
    assert Front(log + [l]) == log;
  }

  /** One more answer extends the last run or starts another. */
  ghost function Extend(bs: seq<seq<real>>, t: real, gap: real): seq<seq<real>>
    requires forall b :: 0 <= b < |bs| ==> bs[b] != []
  {
    if bs != [] && t - Last(Last(bs)) <= gap then Front(bs) + [Last(bs) + [t]] else bs + [[t]]
  }

  lemma ConcatAppend(bs: seq<seq<real>>, b: seq<real>)
    ensures Concat(bs + [b]) == Concat(bs) + b
  {
    assert Front(bs + [b]) == bs;
  }

  lemma ExtendRuns(ts: seq<real>, gap: real, bs: seq<seq<real>>, t: real)
    requires MaximalRuns(ts, gap, bs)
    ensures MaximalRuns(ts + [t], gap, Extend(bs, t, gap))
  {
    if bs != [] && t - Last(Last(bs)) <= gap {
      LongerRun(ts, gap, Front(bs), Last(bs), t);
    } else {
      NewRun(ts, gap, bs, t);
    }
  }

  lemma NewRun(ts: seq<real>, gap: real, bs: seq<seq<real>>, t: real)
    requires MaximalRuns(ts, gap, bs) && (bs != [] ==> t - Last(Last(bs)) > gap)
    ensures MaximalRuns(ts + [t], gap, bs + [[t]])
  {
    hide Concat;
    assert Run([t], gap);
    hide Run;
    ConcatAppend(bs, [t]);
  }

  lemma LongerRun(ts: seq<real>, gap: real, init: seq<seq<real>>, b: seq<real>, t: real)
    requires MaximalRuns(ts, gap, init + [b]) && b != [] && t - Last(b) <= gap
    ensures MaximalRuns(ts + [t], gap, init + [b + [t]])
  {
    hide Concat;
    var bs, bs' := init + [b], init + [b + [t]];
    assert bs[|init|] == b;
    assert Run(b + [t], gap);
    hide Run;
    ConcatAppend(init, b);
    ConcatAppend(init, b + [t]);
    assert forall x :: 0 <= x < |init| ==> bs'[x] == bs[x];
    assert (b + [t])[0] == b[0];
  }

  lemma {:induction false} ConcatLast(bs: seq<seq<real>>)
    requires bs != [] && Last(bs) != []
    ensures Concat(bs) != [] && Last(Concat(bs)) == Last(Last(bs))
  {
  }

  /** A series has one cut into maximal runs. */
  lemma {:induction false} RunsUnique(ts: seq<real>, gap: real, bs: seq<seq<real>>, cs: seq<seq<real>>)
    requires MaximalRuns(ts, gap, bs) && MaximalRuns(ts, gap, cs)
    ensures bs == cs
    decreases |ts|
  {
    if ts == [] {
      if bs != [] { ConcatLast(bs); }
      if cs != [] { ConcatLast(cs); }
    } else {
      var bs', cs' := Shorten(bs), Shorten(cs);
      ShortenRuns(ts, gap, bs);
      ShortenRuns(ts, gap, cs);
      RunsUnique(Front(ts), gap, bs', cs');
    }
  }

  /** The inverse of Extend. */
  ghost function Shorten(bs: seq<seq<real>>): seq<seq<real>> {
    if bs == [] then []
    else if |Last(bs)| <= 1 then Front(bs)
    else Front(bs) + [Front(Last(bs))]
  }

  lemma ShortenOne(ts: seq<real>, gap: real, init: seq<seq<real>>, t: real)
    requires MaximalRuns(ts, gap, init + [[t]])
    ensures ts == Concat(init) + [t] && MaximalRuns(Concat(init), gap, init) && Extend(init, t, gap) == init + [[t]]
  {
    hide Concat, Run;
    var bs := init + [[t]];
    ConcatAppend(init, [t]);
    assert forall b :: 0 <= b < |init| ==> init[b] == bs[b];
    if init != [] { assert bs[|init|][0] - Last(bs[|init| - 1]) > gap; }
  }

  lemma ShortenLong(ts: seq<real>, gap: real, init: seq<seq<real>>, b: seq<real>, t: real)
    requires MaximalRuns(ts, gap, init + [b + [t]]) && b != []
    ensures ts == Concat(init) + b + [t] && MaximalRuns(Concat(init) + b, gap, init + [b])
    ensures Extend(init + [b], t, gap) == init + [b + [t]]
  {
    hide Concat;
    var bs, bs' := init + [b + [t]], init + [b];
    ConcatAppend(init, b + [t]);
    ConcatAppend(init, b);
    assert forall x :: 0 <= x < |init| ==> bs'[x] == bs[x];
    assert bs[|init|] == b + [t] && Run(b + [t], gap);
    RunFront(b, t, gap);
    assert Front(bs') == init && Last(bs') == b;
  }

  lemma RunFront(b: seq<real>, t: real, gap: real)
    requires Run(b + [t], gap) && b != []
    ensures Run(b, gap) && t - Last(b) <= gap
  {
    var c := b + [t];
    assert c[|b|] - c[|b| - 1] <= gap;
    forall i | 0 < i < |b| ensures b[i] - b[i - 1] <= gap { assert c[i] - c[i - 1] <= gap; }
  }

  lemma ShortenRuns(ts: seq<real>, gap: real, bs: seq<seq<real>>)
    requires MaximalRuns(ts, gap, bs) && ts != []
    ensures MaximalRuns(Front(ts), gap, Shorten(bs)) && bs == Extend(Shorten(bs), Last(ts), gap)
  {
    hide MaximalRuns, Run, Concat;
    NonEmpty(ts, gap, bs);
    NonEmptyRuns(ts, gap, bs);
    var init, b := Front(bs), Last(bs);
    var t := Last(b);
    assert bs == init + [b];
    if |b| <= 1 {
      assert b == [t];
      ShortenOne(ts, gap, init, t);
      assert Front(Concat(init) + [t]) == Concat(init);
    } else {
      assert b == Front(b) + [t];
      ShortenLong(ts, gap, init, Front(b), t);
      assert Front(Concat(init) + Front(b) + [t]) == Concat(init) + Front(b);
    }
  }

  // ------------------------------------------------------------------------- the fold

  predicate HasPong(log: Log) {
    exists i :: 0 <= i < |log| && log[i].Answer? && log[i].pong
  }

  /** A down that comes before the log's first pong closes its node's session. */
  predicate Early(log: Log, d: nat)
    requires d < |log|
  {
    log[d].Down? && !HasPong(log[..d])
  }

  /** The node's open session was closed by such a down, and it has not answered since. */
  predicate Popped(log: Log, id: nat) {
    exists d: nat :: d < |log| && Early(log, d) && log[d].id == id && Answers(log[d..], id) == []
  }

  /** The script fails on an answer that comes more than the gap after the last one, with the
      session closed in between. */
  predicate Fails(log: Log, gap: real, k: nat)
    requires k < |log|
  {
    && log[k].Answer?
    && Answers(log[..k], log[k].id) != [] && log[k].t - Last(Answers(log[..k], log[k].id)) > gap
    && Popped(log[..k], log[k].id)
  }

  datatype State = State(openAt: map<nat, real>, last: map<nat, real>, sessions: seq<Session>, havePongs: bool)

  /** What the fold's variables hold after `log`. */
  ghost predicate Keeps(log: Log, st: State) {
    st.havePongs == HasPong(log) && forall id: nat :: KeepsFor(log, st, id)
  }

  ghost predicate KeepsFor(log: Log, st: State, id: nat) {
    && (id in st.last <==> Answers(log, id) != [])
    && (id in st.last ==> st.last[id] == Last(Answers(log, id)))
    && (id in st.openAt <==> Answers(log, id) != [] && !Popped(log, id))
  }

  ghost predicate NoEarlyDown(log: Log) {
    forall d: nat :: d < |log| ==> !Early(log, d)
  }

  /** One node's sessions so far: all its runs but the last are closed, the last is open. */
  ghost predicate Folded(log: Log, gap: real, st: State, id: nat, bs: seq<seq<real>>) {
    && MaximalRuns(Answers(log, id), gap, bs)
    && (if bs == [] then id !in st.openAt && Of(st.sessions, id) == []
        else id in st.openAt && st.openAt[id] == Last(bs)[0] && Of(st.sessions, id) == Spans(id, Front(bs)))
  }

  ghost predicate AllFolded(log: Log, gap: real, st: State) {
    forall id: nat :: HasRuns(log, gap, st, id)
  }

  ghost predicate HasRuns(log: Log, gap: real, st: State, id: nat) {
    exists bs :: Folded(log, gap, st, id, bs)
  }

  /** One line of the log. */
  function Step(st: State, l: Line, gap: real): Result<State> {
    match l
    case Answer(id, t, pong) =>
      var late := id in st.last && t - st.last[id] > gap;
      if late && id !in st.openAt then Err
      else
        var openAt := if late then st.openAt - {id} else st.openAt;
        Ok(State(
          if id in openAt then openAt else openAt[id := t], st.last[id := t],
          if late then st.sessions + [Session(id, st.openAt[id], Some(st.last[id]))] else st.sessions,
          st.havePongs || pong))
    case Down(id, t) =>
      if st.havePongs || id !in st.openAt then Ok(st)
      else Ok(st.(openAt := st.openAt - {id}, sessions := st.sessions + [Session(id, st.openAt[id], Some(t))]))
    case _ => Ok(st)
  }

  lemma HasPongAppend(log: Log, l: Line)
    ensures HasPong(log + [l]) == (HasPong(log) || (l.Answer? && l.pong))
  {
    var log' := log + [l];
    if HasPong(log) {
      var i :| 0 <= i < |log| && log[i].Answer? && log[i].pong;
      assert log'[i] == log[i];
    }
    if l.Answer? && l.pong {
      assert log'[|log|] == l;
    }
  }

  lemma PoppedAppend(log: Log, l: Line, id: nat)
    ensures Popped(log + [l], id) <==>
              (l.Down? && l.id == id && !HasPong(log)) || (Popped(log, id) && !(l.Answer? && l.id == id))
  {
    hide HasPong;
    var log' := log + [l];
    var n := |log|;
    assert log'[..n] == log && log'[n..] == [l];
    assert Front([l]) == [];
    forall d: nat | d < n
      ensures Answers(log'[d..], id) == Answers(log[d..], id) + if l.Answer? && l.id == id then [l.t] else []
      ensures Early(log', d) <==> Early(log, d)
    {
      assert log'[d..] == log[d..] + [l];
      AnswersAppend(log[d..], l, id);
      assert log'[..d] == log[..d];
    }
    if l.Down? && l.id == id && !HasPong(log) {
      assert Early(log', n) && Answers(log'[n..], id) == [];
    } else if Popped(log, id) && !(l.Answer? && l.id == id) {
      var d: nat :| d < |log| && Early(log, d) && log[d].id == id && Answers(log[d..], id) == [];
      assert Early(log', d) && log'[d].id == id && Answers(log'[d..], id) == [];
    }
  }

  lemma StepKeepsFor(log: Log, st: State, l: Line, gap: real, id: nat)
    requires st.havePongs == HasPong(log) && KeepsFor(log, st, id) && Step(st, l, gap).Ok?
    ensures KeepsFor(log + [l], Step(st, l, gap).value, id)
  {
    hide HasPong, Popped, Answers;
    PoppedAppend(log, l, id);
    AnswersAppend(log, l, id);
  }

  lemma StepFails(log: Log, st: State, l: Line, gap: real)
    requires l.Answer? ==> KeepsFor(log, st, l.id)
    ensures Step(st, l, gap).Err? <==> Fails(log + [l], gap, |log|)
  {
    hide HasPong, Popped, Answers;
    assert (log + [l])[..|log|] == log;
  }

  lemma StepKeeps(log: Log, st: State, l: Line, gap: real)
    requires Keeps(log, st)
    ensures Step(st, l, gap).Ok? ==> Keeps(log + [l], Step(st, l, gap).value)
    ensures Step(st, l, gap).Err? <==> Fails(log + [l], gap, |log|)
  {
    hide HasPong, KeepsFor, Fails;
    HasPongAppend(log, l);
    StepFails(log, st, l, gap);
    if Step(st, l, gap).Ok? {
      var st' := Step(st, l, gap).value;
      forall id: nat ensures KeepsFor(log + [l], st', id) {
        StepKeepsFor(log, st, l, gap, id);
      }
    }
  }

  lemma NoPops(log: Log, id: nat)
    requires NoEarlyDown(log)
    ensures !Popped(log, id)
  {
  }

  lemma StepFolds(log: Log, st: State, l: Line, gap: real, id: nat, bs: seq<seq<real>>)
    requires Keeps(log, st) && Folded(log, gap, st, id, bs) && Step(st, l, gap).Ok? && (l.Down? ==> st.havePongs)
    ensures HasRuns(log + [l], gap, Step(st, l, gap).value, id)
  {
    hide Keeps, Folded, Step, Extend, MaximalRuns;
    if l.Answer? && l.id == id {
      FoldsAnswer(log, st, l, gap, bs);
    } else {
      FoldsOther(log, st, l, gap, id, bs);
    }
  }

  lemma FoldsOther(log: Log, st: State, l: Line, gap: real, id: nat, bs: seq<seq<real>>)
    requires Folded(log, gap, st, id, bs) && Step(st, l, gap).Ok? && (l.Down? ==> st.havePongs)
    requires !(l.Answer? && l.id == id)
    ensures Folded(log + [l], gap, Step(st, l, gap).value, id, bs)
  {
    hide Answers, MaximalRuns, Of;
    AnswersAppend(log, l, id);
    assert forall b :: 0 <= b < |bs| ==> bs[b] != [] by { NonEmptyRuns(Answers(log, id), gap, bs); }
    var st' := Step(st, l, gap).value;
    if st'.sessions != st.sessions {
      OfAppend(st.sessions, Last(st'.sessions), id);
    }
  }

  lemma NonEmpty(ts: seq<real>, gap: real, bs: seq<seq<real>>)
    requires MaximalRuns(ts, gap, bs)
    ensures ts == [] <==> bs == []
    ensures ts != [] ==> Last(ts) == Last(Last(bs))
  {
    if bs != [] { ConcatLast(bs); }
  }

  lemma FoldsAnswer(log: Log, st: State, l: Line, gap: real, bs: seq<seq<real>>)
    requires l.Answer? && Keeps(log, st) && Folded(log, gap, st, l.id, bs) && Step(st, l, gap).Ok?
    ensures HasRuns(log + [l], gap, Step(st, l, gap).value, l.id)
  {
    hide HasPong, Popped, Answers, Of, MaximalRuns;
    var ts := Answers(log, l.id);
    assert forall b :: 0 <= b < |bs| ==> bs[b] != [] by { NonEmptyRuns(ts, gap, bs); }
    NonEmpty(ts, gap, bs);
    AnswersAppend(log, l, l.id);
    ExtendRuns(ts, gap, bs, l.t);
    assert KeepsFor(log, st, l.id);
    assert ts != [] ==> st.last[l.id] == Last(Last(bs));
    hide Keeps;
    FoldsRuns(log, st, l, gap, bs);
    assert Folded(log + [l], gap, Step(st, l, gap).value, l.id, Extend(bs, l.t, gap));
  }

  ghost predicate AtRuns(st: State, id: nat, bs: seq<seq<real>>) {
    && (forall b :: 0 <= b < |bs| ==> bs[b] != []) && (id in st.last <==> bs != [])
    && (bs != [] ==> st.last[id] == Last(Last(bs)))
  }

  lemma FoldsRuns(log: Log, st: State, l: Line, gap: real, bs: seq<seq<real>>)
    requires l.Answer? && Folded(log, gap, st, l.id, bs) && Step(st, l, gap).Ok? && AtRuns(st, l.id, bs)
    requires MaximalRuns(Answers(log + [l], l.id), gap, Extend(bs, l.t, gap))
    ensures Folded(log + [l], gap, Step(st, l, gap).value, l.id, Extend(bs, l.t, gap))
  {
    hide Answers, MaximalRuns, Of;
    assert forall b :: 0 <= b < |bs| ==> bs[b] != [];
    if bs != [] && l.t - st.last[l.id] > gap {
      hide Extend;
      FoldsLate(st, l, gap, bs);
    } else {
      FoldsSoon(st, l, gap, bs);
    }
  }

  lemma FoldsLate(st: State, l: Line, gap: real, bs: seq<seq<real>>)
    requires l.Answer? && Step(st, l, gap).Ok? && AtRuns(st, l.id, bs) && bs != [] && l.t - st.last[l.id] > gap
    requires l.id in st.openAt && st.openAt[l.id] == Last(bs)[0] && Of(st.sessions, l.id) == Spans(l.id, Front(bs))
    ensures var st', bs' := Step(st, l, gap).value, Extend(bs, l.t, gap);
            (forall b :: 0 <= b < |bs'| ==> bs'[b] != []) && bs' != [] && l.id in st'.openAt
            && st'.openAt[l.id] == Last(bs')[0] && Of(st'.sessions, l.id) == Spans(l.id, Front(bs'))
  {
    hide Of;
    var bs' := Extend(bs, l.t, gap);
    OfAppend(st.sessions, Session(l.id, st.openAt[l.id], Some(st.last[l.id])), l.id);
    assert Front(bs') == bs && Last(bs') == [l.t];
    LastSpan(l.id, bs);
    hide Extend, Spans;
  }

  lemma LastSpan(id: nat, bs: seq<seq<real>>)
    requires bs != [] && forall b :: 0 <= b < |bs| ==> bs[b] != []
    ensures Spans(id, bs) == Spans(id, Front(bs)) + [Session(id, Last(bs)[0], Some(Last(Last(bs))))]
  {
  }

  lemma FoldsSoon(st: State, l: Line, gap: real, bs: seq<seq<real>>)
    requires l.Answer? && Step(st, l, gap).Ok? && AtRuns(st, l.id, bs) && (bs != [] ==> l.t - st.last[l.id] <= gap)
    requires if bs == [] then l.id !in st.openAt && Of(st.sessions, l.id) == []
             else l.id in st.openAt && st.openAt[l.id] == Last(bs)[0] && Of(st.sessions, l.id) == Spans(l.id, Front(bs))
    ensures var st', bs' := Step(st, l, gap).value, Extend(bs, l.t, gap);
            (forall b :: 0 <= b < |bs'| ==> bs'[b] != []) && bs' != [] && l.id in st'.openAt
            && st'.openAt[l.id] == Last(bs')[0] && Of(st'.sessions, l.id) == Spans(l.id, Front(bs'))
  {
    hide Of;
    var bs' := Extend(bs, l.t, gap);
    if bs == [] {
      assert Front(bs') == [] && Spans(l.id, []) == [];
    } else {
      assert Front(bs') == Front(bs) && Last(bs') == Last(bs) + [l.t];
    }
  }

  lemma NonEmptyRuns(ts: seq<real>, gap: real, bs: seq<seq<real>>)
    requires MaximalRuns(ts, gap, bs)
    ensures forall b :: 0 <= b < |bs| ==> bs[b] != []
  {
  }

  // ------------------------------------------------------------------ the script's loop

  /** When the log ends: at its last sweep, or its last line. */
  function EndOf(log: Log): real
    requires log != []
  {
    var i := LastSweep(log, |log|);
    if i == 0 then Last(log).t else log[i - 1].t
  }

  /** One past the last sweep of the first `n` lines. */
  function LastSweep(log: Log, n: nat): (i: nat)
    requires n <= |log|
    ensures i <= n && (i > 0 ==> log[i - 1].Sweep?) && forall j :: i <= j < n ==> !log[j].Sweep?
  {
    if n == 0 || log[n - 1].Sweep? then n else LastSweep(log, n - 1)
  }

  /** The last sweep ends the log, or its last line if none is a sweep. */
  lemma EndOfMeans(log: Log, i: nat)
    requires i < |log| && (forall j :: i < j < |log| ==> !log[j].Sweep?)
    ensures log[i].Sweep? ==> EndOf(log) == log[i].t
    ensures (forall j :: 0 <= j <= i ==> !log[j].Sweep?) ==> EndOf(log) == log[|log| - 1].t
  {
    var l := LastSweep(log, |log|);
    assert l > 0 ==> log[l - 1].Sweep?;
  }

  /** The end of a node's last session: missing while it answered within the gap of the log's end. */
  function Closing(last: real, tEnd: real, gap: real, havePongs: bool): Option<real> {
    if havePongs && tEnd - last > gap then Some(last) else None
  }

  /** A node's sessions are its maximal runs; only the last may be open. */
  ghost predicate SessionsAreRuns(log: Log, gap: real, ss: seq<Session>, id: nat)
    requires log != []
  {
    exists bs :: (
      MaximalRuns(Answers(log, id), gap, bs) && (forall b :: 0 <= b < |bs| ==> bs[b] != []) &&
      Ends(log, gap, Of(ss, id), id, bs))
  }

  ghost predicate Ends(log: Log, gap: real, ss: seq<Session>, id: nat, bs: seq<seq<real>>)
    requires log != [] && forall b :: 0 <= b < |bs| ==> bs[b] != []
  {
    if bs == [] then ss == []
    else
      var last := Last(Last(bs));
      ss == Spans(id, Front(bs)) + [Session(id, Last(bs)[0], if HasPong(log) && EndOf(log) - last > gap then Some(last)
                                                             else None)]
  }

  /** The pass over the log. */
  method ReadLog(log: Log, gap: real) returns (r: Result<State>)
    ensures r.Err? <==> exists k: nat :: k < |log| && Fails(log, gap, k)
    ensures r.Ok? ==> Keeps(log, r.value)
    ensures r.Ok? && NoEarlyDown(log) ==> AllFolded(log, gap, r.value)
  {
    hide Fails, Step, Keeps, AllFolded;
    var st := State(map[], map[], [], false);
    StartKeeps(gap);
    for i := 0 to |log|
      invariant Keeps(log[..i], st) && forall k: nat :: k < i ==> !Fails(log, gap, k)
      invariant NoEarlyDown(log) ==> AllFolded(log[..i], gap, st)
    {
      assert log[..i + 1] == log[..i] + [log[i]];
      StepKeeps(log[..i], st, log[i], gap);
      FailsHere(log, gap, i);
      var next := Step(st, log[i], gap);
      if next.Err? {
        return Err;
      }
      if NoEarlyDown(log) { AllStep(log, i, st, gap); }
      st := next.value;
    }
    assert log[..|log|] == log;
    return Ok(st);
  }

  lemma StartKeeps(gap: real)
    ensures Keeps([], State(map[], map[], [], false)) && AllFolded([], gap, State(map[], map[], [], false))
  {
    var st := State(map[], map[], [], false);
    forall id: nat ensures HasRuns([], gap, st, id) {
      assert Folded([], gap, st, id, []);
    }
  }

  lemma FailsHere(log: Log, gap: real, i: nat)
    requires i < |log|
    ensures Fails(log, gap, i) <==> Fails(log[..i + 1], gap, i)
  {
    assert log[..i + 1][..i] == log[..i];
  }

  lemma AllStep(log: Log, i: nat, st: State, gap: real)
    requires NoEarlyDown(log) && i < |log| && Keeps(log[..i], st) && AllFolded(log[..i], gap, st)
    requires Step(st, log[i], gap).Ok?
    ensures AllFolded(log[..i] + [log[i]], gap, Step(st, log[i], gap).value)
  {
    hide Folded, Step, Popped;
    assert !Early(log, i);
    forall id: nat ensures HasRuns(log[..i] + [log[i]], gap, Step(st, log[i], gap).value, id) {
      assert HasRuns(log[..i], gap, st, id);
      var bs :| Folded(log[..i], gap, st, id, bs);
      StepFolds(log[..i], st, log[i], gap, id, bs);
    }
  }

  /** The closing loop over the open sessions, in any order. */
  method CloseOpen(log: Log, gap: real, st: State) returns (ss: seq<Session>)
    requires log != [] && Keeps(log, st)
    ensures forall id: nat :: Of(ss, id) == Of(st.sessions, id) + Final(log, gap, st, id)
  {
    hide Of, Keeps, EndOf, Closing;
    ss := st.sessions;
    var tEnd := EndOf(log);
    assert forall id: nat :: id in st.openAt ==> id in st.last by { OpenAnswered(log, st); }
    assert st.havePongs == HasPong(log) by { OpenAnswered(log, st); }
    var rest := st.openAt.Keys;
    while rest != {}
      invariant rest <= st.openAt.Keys
      invariant forall id: nat :: Of(ss, id) == Of(st.sessions, id) + if id in rest then [] else Final(log, gap, st, id)
    {
      var id :| id in rest;
      var s := Session(id, st.openAt[id], Closing(st.last[id], tEnd, gap, st.havePongs));
      forall x: nat ensures Of(ss + [s], x) == Of(ss, x) + if id == x then [s] else [] { OfAppend(ss, s, x); }
      ss := ss + [s];
      rest := rest - {id};
    }
  }

  ghost function Final(log: Log, gap: real, st: State, id: nat): seq<Session>
    requires log != []
  {
    if id in st.openAt && id in st.last
    then [Session(id, st.openAt[id], Closing(st.last[id], EndOf(log), gap, HasPong(log)))]
    else []
  }

  lemma OpenAnswered(log: Log, st: State)
    requires Keeps(log, st)
    ensures forall id: nat :: id in st.openAt ==> id in st.last
    ensures st.havePongs == HasPong(log)
  {
    hide Popped, Answers, HasPong;
    forall id: nat | id in st.openAt ensures id in st.last {
      assert KeepsFor(log, st, id);
    }
  }

  lemma FinalRuns(log: Log, gap: real, st: State, ss: seq<Session>, id: nat)
    requires log != [] && Keeps(log, st) && HasRuns(log, gap, st, id)
    requires Of(ss, id) == Of(st.sessions, id) + Final(log, gap, st, id)
    ensures SessionsAreRuns(log, gap, ss, id)
  {
    hide Popped, Answers, HasPong, Of, Run, Concat, EndOf;
    var bs :| Folded(log, gap, st, id, bs);
    assert KeepsFor(log, st, id);
    NonEmpty(Answers(log, id), gap, bs);
    assert Ends(log, gap, Of(ss, id), id, bs);
  }

  /** The script: for a log whose downs come after its first pong, each node's sessions are exactly its
      maximal runs of answers, the last one open exactly when the node answered within the gap of the
      log's end. It fails on an empty log, and where Fails says. */
  method Sessions(log: Log, gap: real) returns (r: Result<seq<Session>>)
    ensures r.Err? <==> log == [] || exists k: nat :: k < |log| && Fails(log, gap, k)
    ensures r.Ok? && NoEarlyDown(log) ==> forall id: nat :: SessionsAreRuns(log, gap, r.value, id)
  {
    hide Fails, Keeps, HasRuns, SessionsAreRuns, Of, Final, NoEarlyDown;
    if log == [] {
      return Err;
    }
    var st := ReadLog(log, gap);
    if st.Err? {
      return Err;
    }
    var ss := CloseOpen(log, gap, st.value);
    if NoEarlyDown(log) {
      forall id: nat ensures SessionsAreRuns(log, gap, ss, id) {
        FinalRuns(log, gap, st.value, ss, id);
      }
    }
    return Ok(ss);
  }

  /** Such a log never fails. */
  lemma NoEarlyDownNeverFails(log: Log, gap: real, k: nat)
    requires NoEarlyDown(log) && k < |log|
    ensures !Fails(log, gap, k)
  {
    forall d: nat | d < k ensures !Early(log[..k], d) {
      assert log[..k][..d] == log[..d];
      assert !Early(log, d);
    }
    if log[k].Answer? { NoPops(log[..k], log[k].id); }
  }

  /** A log without pongs, which the script means to fold by its ups and downs, fails at the first
      rejoin later than the gap after the previous up. */
  lemma OldLogFails(gap: real, down: real, back: real)
    requires back > gap
    ensures Fails([Answer(0, 0.0, false), Down(0, down), Answer(0, back, false)], gap, 2)
  {
    var log := [Answer(0, 0.0, false), Down(0, down), Answer(0, back, false)];
    var cut := log[..2];
    assert cut == [Answer(0, 0.0, false), Down(0, down)];
    assert Front(cut) == [Answer(0, 0.0, false)] && Front([Answer(0, 0.0, false)]) == [];
    assert Answers([Answer(0, 0.0, false)], 0) == [0.0];
    assert cut[1..] == [Down(0, down)] && Front([Down(0, down)]) == [];
    assert Answers(cut[1..], 0) == [];
    assert Early(cut, 1);
  }
}
