/** Which bodies the multipart parser does not survive: it stores bytes through the item buffer
    it has freed, exactly when the delimiter of a file is followed by what cannot follow it. */
module MultipartFault {
  import opened Multipart
  import opened MultipartScan

  /** A file has its buffer while it is collected, and none once it has been delivered. */
  predicate Buffered(p: Parser) {
    match p.stage
    case WaitForReturn1 => Takes(p.sink)
    case ExpectFeed1 => Takes(p.sink)
    case ExpectDash1 => Takes(p.sink)
    case ExpectDash2 => Takes(p.sink)
    case BoundaryOrData => Takes(p.sink)
    case Dash3OrReturn2 => p.sink.head.isFile ==> !p.sink.hasBuffer
    case ExpectFeed2 => p.sink.head.isFile ==> !p.sink.hasBuffer
    case _ => true
  }

  predicate Sound(p: Parser) {
    !p.sink.fault && (p.parsed > 0 ==> Buffered(p))
  }

  /** After a delimiter, `c` neither closes the body nor goes on to a line end; and the item was a
      file, or the boundary is too long to be replayed. */
  predicate Breaks(env: Env, p: Parser, c: char) {
    && p.parsed > 0 && (p.sink.head.isFile || |env.boundary| >= 256)
    && ((p.stage == Dash3OrReturn2 && c != '-' && c != '\r') || (p.stage == ExpectFeed2 && c != '\n'))
  }

  lemma WriteOpen(env: Env, k: Sink, c: char, last: bool)
    ensures k.fault ==> Write(env, k, c, last) == k
    ensures Write(env, k, c, last).fault <==> !Takes(k)
    ensures Takes(k) ==> Takes(Write(env, k, c, last))
    ensures Write(env, k, c, last).head == k.head
  {
  }

  lemma {:induction false} PourOpen(env: Env, k: Sink, n: nat, last: bool)
    requires !k.fault && n <= |env.boundary| + 6
    ensures var q := Pour(env, k, Mark(env), n, last);
            && (q.fault <==> n > 0 && !Takes(k)) && (Takes(k) ==> Takes(q)) && q.head == k.head
  {
    hide Write, Takes, Mark;
    if n > 0 {
      PourOpen(env, k, n - 1, last);
      var q := Pour(env, k, Mark(env), n - 1, last);
      WriteOpen(env, q, Mark(env)[n - 1], last);
      SameTakes(k, q);
    }
  }

  lemma SameTakes(k: Sink, q: Sink)
    ensures q.fault ==> !Takes(q)
    ensures q == k ==> Takes(q) == Takes(k)
  {
  }

  lemma WaitOpen(env: Env, p: Parser, c: char, last: bool)
    requires Takes(p.sink) && p.stage == WaitForReturn1
    ensures var q := Wait(env, p, c, last); Takes(q.sink) && (q.stage == WaitForReturn1 || q.stage == ExpectFeed1)
  {
    hide Write;
    WriteOpen(env, p.sink, c, last);
  }

  lemma FallbackOpen(env: Env, p: Parser, n: nat, c: char, last: bool)
    requires !p.sink.fault && 0 < n <= |env.boundary| + 6
    ensures Fallback(env, p, n, c, last).sink.fault <==> !Takes(p.sink)
    ensures Takes(p.sink) ==> Buffered(Fallback(env, p, n, c, last))
  {
    hide Write, Pour, Mark;
    PourOpen(env, p.sink, n, last);
    if Takes(p.sink) {
      WaitOpen(env, p.(stage := WaitForReturn1, sink := Pour(env, p.sink, Mark(env), n, last)), c, last);
    }
  }

  lemma {:induction false} DataSound(env: Env, p: Parser, c: char, last: bool)
    requires Sound(p) && p.parsed > 0 && p.stage !in {ExpectBoundary, ParseHeaders, ParseError}
    ensures Data(env, p, c, last).sink.fault <==> Breaks(env, p, c)
    ensures !Breaks(env, p, c) ==> Buffered(Data(env, p, c, last))
  {
    hide Wait, Write, Fallback;
    match p.stage
    case WaitForReturn1 => WaitOpen(env, p, c, last);
    case ExpectFeed1 => FallbackOpen(env, p, 1, c, last);
    case ExpectDash1 => FallbackOpen(env, p, 2, c, last);
    case ExpectDash2 => FallbackOpen(env, p, 3, c, last);
    case BoundaryOrData =>
      if p.bp < |env.boundary| {
        FallbackOpen(env, p, 4 + p.bp, c, last);
      }
    case Dash3OrReturn2 => FallbackOpen(env, p, |env.boundary| + 4, c, last);
    case ExpectFeed2 => FallbackOpen(env, p, |env.boundary| + 5, c, last);
    case _ =>
  }

  /** One byte: the program ends exactly on a byte that cannot follow a delimiter. */
  lemma ByteFaults(env: Env, p: Parser, c: char, last: bool)
    requires Sound(p)
    ensures Next(env, p, c, last).sink.fault <==> Breaks(env, p, c)
    ensures !Breaks(env, p, c) ==> Sound(Next(env, p, c, last))
  {
    hide Data, HeaderLine;
    if p.parsed > 0 && p.stage !in {ExpectBoundary, ParseHeaders, ParseError} {
      DataSound(env, p, c, last);
    } else {
      OutsideItems(env, p, c, last);
    }
  }

  lemma OutsideItems(env: Env, p: Parser, c: char, last: bool)
    requires !p.sink.fault && (p.parsed == 0 || p.stage in {ExpectBoundary, ParseHeaders, ParseError})
    ensures !Next(env, p, c, last).sink.fault && Buffered(Next(env, p, c, last))
  {
    hide Data, HeaderLine;
  }

  /** Over every body, well-formed or not: the program ends while reading it if and only if
      somewhere a delimiter that is followed by neither a dash nor a line end has ended a file
      (or has a boundary of 256 characters). */
  lemma {:induction false} FaultsExactly(env: Env, p: Parser, s: string, n: nat)
    requires n <= |s| && p.parsed == 0 && !p.sink.fault
    ensures Run(env, p, s, n).sink.fault <==> exists k :: 0 <= k < n && Breaks(env, Run(env, p, s, k), s[k])
    ensures !Run(env, p, s, n).sink.fault ==> Sound(Run(env, p, s, n))
  {
    hide Next, Breaks, Buffered;
    if n > 0 {
      FaultsExactly(env, p, s, n - 1);
      var q := Run(env, p, s, n - 1);
      if q.sink.fault {
        StaysFaulted(env, q, s[n - 1], n == |s|);
      } else {
        ByteFaults(env, q, s[n - 1], n == |s|);
        assert Breaks(env, Run(env, p, s, n - 1), s[n - 1]) <==> Run(env, p, s, n).sink.fault;
      }
    }
  }

  lemma StaysFaulted(env: Env, p: Parser, c: char, last: bool)
    requires p.sink.fault
    ensures Next(env, p, c, last).sink.fault
  {
  }
}
