/** How the multipart parser finds the end of an item: the bytes written and the bytes held
    back are always exactly the bytes consumed, and the delimiter is found where it first ends. */
module MultipartScan {
  import opened FormCodec
  import opened Multipart

  /** Section 5.1.1 of RFC 2046: 1 to 70 characters, none of them a line break. */
  ghost predicate GoodBoundary(env: Env) {
    1 <= |env.boundary| <= 70 && '\r' !in env.boundary
  }

  /** The delimiter is the first `Len` characters of the mark. */
  function Len(env: Env): nat {
    |env.boundary| + 4
  }

  /** The parser waits in an item, `k` characters of the delimiter held back. */
  ghost predicate Holding(env: Env, p: Parser, k: nat) {
    && !p.sink.fault && p.parsed > 0
    && match p.stage
       case WaitForReturn1 => k == 0
       case ExpectFeed1 => k == 1
       case ExpectDash1 => k == 2
       case ExpectDash2 => k == 3
       case BoundaryOrData => k == 4 + p.bp < Len(env)
       case _ => false
  }

  /** One byte in an item: the delimiter grows, is complete, or breaks off. */
  lemma DataStep(env: Env, p: Parser, k: nat, c: char, last: bool)
    requires GoodBoundary(env) && Holding(env, p, k)
    ensures k < Len(env)
    ensures var q := Step(env, p, c, last);
            if c != Mark(env)[k] then
              q == Wait(env, p.(stage := WaitForReturn1, sink := Pour(env, p.sink, Mark(env), k, last)), c, last)
            else if k + 1 < Len(env) then
              Holding(env, q, k + 1) && q == p.(stage := q.stage, bp := q.bp)
            else
              q == Deliver(env, p)
  {
    hide Write, Deliver, Pour;
    PourNothing(env, p.sink, last);
  }

  lemma PourNothing(env: Env, k: Sink, last: bool)
    ensures Pour(env, k, Mark(env), 0, last) == k
  {
  }

  /** How many characters of the delimiter the bytes `b..n` of `s` end with. */
  function Matched(env: Env, s: string, b: nat, n: nat): nat
    requires b <= n <= |s|
  {
    if n == b then 0
    else
      var k, c := Matched(env, s, b, n - 1), s[n - 1];
      if k < Len(env) && c == Mark(env)[k] then k + 1 else if c == '\r' then 1 else 0
  }

  ghost predicate EndsWith(env: Env, s: string, b: nat, n: nat, j: nat) {
    && j <= Len(env) && b + j <= n <= |s|
    && forall i :: 0 <= i < j ==> Mark(env)[i] == s[n - j + i]
  }

  lemma OnlyReturn(env: Env, i: nat)
    requires GoodBoundary(env) && i < Len(env)
    ensures Mark(env)[i] == '\r' <==> i == 0
  {
  }

  /** What is matched is a suffix of the bytes read ... */
  lemma {:induction false} MatchedEnds(env: Env, s: string, b: nat, n: nat)
    requires b <= n <= |s|
    ensures EndsWith(env, s, b, n, Matched(env, s, b, n))
  {
    hide Mark;
    if n > b {
      MatchedEnds(env, s, b, n - 1);
      MarkStarts(env);
    }
  }

  lemma MarkStarts(env: Env)
    ensures Mark(env)[0] == '\r'
  {
  }

  lemma EndsShorter(env: Env, s: string, b: nat, n: nat, j: nat)
    requires EndsWith(env, s, b, n, j) && j > 0
    ensures EndsWith(env, s, b, n - 1, j - 1) && s[n - 1] == Mark(env)[j - 1]
  {
    hide Mark;
    assert Mark(env)[j - 1] == s[n - j + (j - 1)];
    forall i | 0 <= i < j - 1
      ensures Mark(env)[i] == s[(n - 1) - (j - 1) + i]
    {
      assert Mark(env)[i] == s[n - j + i];
    }
  }

  /** ... and the longest one that begins the delimiter, as '\r' only starts it. */
  lemma {:induction false} MatchedLongest(env: Env, s: string, b: nat, n: nat, j: nat)
    requires GoodBoundary(env) && EndsWith(env, s, b, n, j)
    ensures j <= Matched(env, s, b, n)
  {
    hide Mark;
    if j > 0 {
      EndsShorter(env, s, b, n, j);
      MatchedLongest(env, s, b, n - 1, j - 1);
      MatchedEnds(env, s, b, n - 1);
      MarkStarts(env);
      var k := Matched(env, s, b, n - 1);
      if j - 1 < k && j > 1 {
        // the shorter match would put a '\r' inside the longer one
        OnlyReturn(env, k - (j - 1));
      }
    }
  }

  /** Bytes `b..n` of `s` are written to the item. */
  function Stored(env: Env, k: Sink, s: string, b: nat, n: nat): Sink
    requires b <= n <= |s|
  {
    if n == b then k else Write(env, Stored(env, k, s, b, n - 1), s[n - 1], false)
  }

  /** An item that takes bytes. */
  predicate Takes(k: Sink) {
    !k.fault && (k.head.isFile ==> k.hasBuffer)
  }

  lemma {:induction false} StoredOpen(env: Env, k: Sink, s: string, b: nat, n: nat)
    requires b <= n <= |s| && Takes(k)
    ensures Takes(Stored(env, k, s, b, n)) && Stored(env, k, s, b, n).head == k.head
  {
    if n > b {
      StoredOpen(env, k, s, b, n - 1);
    }
  }

  /** Writing out the held-back characters is writing the bytes they came from. */
  lemma {:induction false} Replayed(env: Env, k: Sink, s: string, b: nat, n: nat, j: nat)
    requires EndsWith(env, s, b, n, j)
    ensures Pour(env, Stored(env, k, s, b, n - j), Mark(env), j, false) == Stored(env, k, s, b, n)
    decreases j
  {
    hide Write, Mark;
    if j > 0 {
      EndsShorter(env, s, b, n, j);
      Replayed(env, k, s, b, n - 1, j - 1);
    }
  }

  /** Held-back invariant, over every run: while no delimiter has ended, what was written to
      the item and what is held back are together exactly the bytes consumed. */
  lemma {:induction false} HeldBack(env: Env, p: Parser, s: string, b: nat, n: nat)
    requires GoodBoundary(env) && b <= n < |s|
    requires Holding(env, Run(env, p, s, b), 0) && Takes(Run(env, p, s, b).sink)
    requires forall j :: b < j <= n ==> Matched(env, s, b, j) < Len(env)
    ensures var q, k := Run(env, p, s, n), Matched(env, s, b, n);
            && Holding(env, q, k) && b + k <= n && EndsWith(env, s, b, n, k)
            && q == Run(env, p, s, b).(stage := q.stage, bp := q.bp, parsed := q.parsed,
                                       sink := Stored(env, Run(env, p, s, b).sink, s, b, n - k))
            && q.parsed == Run(env, p, s, b).parsed + (n - b)
  {
    hide Write, Deliver, Step, Pour, Mark;
    MatchedEnds(env, s, b, n);
    if n > b {
      HeldBack(env, p, s, b, n - 1);
      var was, k := Run(env, p, s, n - 1), Matched(env, s, b, n - 1);
      DataStep(env, was, k, s[n - 1], false);
      MatchedEnds(env, s, b, n - 1);
      Replayed(env, Run(env, p, s, b).sink, s, b, n - 1, k);
      StoredOpen(env, Run(env, p, s, b).sink, s, b, n);
      StoredOpen(env, Run(env, p, s, b).sink, s, b, n - 1);
      MarkStarts(env);
    }
  }

  /** The delimiter starts at position `e`, and none ends in the item before it. */
  ghost predicate Delimits(env: Env, s: string, b: nat, e: nat) {
    && EndsWith(env, s, e, e + Len(env), Len(env))
    && forall j :: b <= j <= e ==> !EndsWith(env, s, b, j, Len(env))
  }

  /** A delimiter that follows an item cannot be mistaken earlier: '\r' only starts it. */
  lemma NoEarlyEnd(env: Env, s: string, b: nat, e: nat, j: nat)
    requires GoodBoundary(env) && b <= e && Delimits(env, s, b, e)
    requires b <= j < e + Len(env)
    ensures Matched(env, s, b, j) < Len(env)
  {
    hide Mark;
    MatchedEnds(env, s, b, j);
    if Matched(env, s, b, j) >= Len(env) && j > e {
      OnlyReturn(env, 0);
      OnlyReturn(env, e + Len(env) - j);
    }
  }

  lemma EndFound(env: Env, s: string, b: nat, e: nat)
    requires GoodBoundary(env) && b <= e && Delimits(env, s, b, e)
    ensures Matched(env, s, b, e + Len(env)) == Len(env)
  {
    hide Mark;
    MatchedLongest(env, s, b, e + Len(env), Len(env));
    MatchedEnds(env, s, b, e + Len(env));
  }

  /** The item's bytes `b..e`, then its delimiter: the item is delivered holding exactly them. */
  lemma ItemScanned(env: Env, p: Parser, s: string, b: nat, e: nat)
    requires GoodBoundary(env) && b <= e && e + Len(env) < |s| && Delimits(env, s, b, e)
    requires Holding(env, Run(env, p, s, b), 0) && Takes(Run(env, p, s, b).sink)
    ensures var was, q := Run(env, p, s, b), Run(env, p, s, e + Len(env));
            && q.parsed == was.parsed + (e - b) + Len(env)
            && q == Deliver(env, was.(bp := q.bp, parsed := q.parsed, sink := Stored(env, was.sink, s, b, e)))
  {
    hide Write, Step, Pour, Mark, EndsWith, Delimits;
    var n := e + Len(env) - 1;
    forall j | b < j <= n
      ensures Matched(env, s, b, j) < Len(env)
    {
      NoEarlyEnd(env, s, b, e, j);
    }
    HeldBack(env, p, s, b, n);
    EndFound(env, s, b, e);
    DataStep(env, Run(env, p, s, n), Matched(env, s, b, n), s[n], false);
  }
}
