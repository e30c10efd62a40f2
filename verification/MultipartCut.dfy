/** Bodies the multipart parser does not get to the end of: errors, items there is no memory for,
    boundaries longer than it can compare, and files the body breaks off in. */
module MultipartCut {
  import opened FormCodec
  import opened Multipart
  import opened MultipartFault
  import opened MultipartRoundTrip
  import opened MultipartScan

  // ---------------------------------------------------------------------------
  //  Errors
  // ---------------------------------------------------------------------------

  /** Once in error, the parser neither leaves it nor receives anything more, and the next byte
      frees the item's buffer. */
  lemma {:induction false} ErrorStays(env: Env, p: Parser, s: string, i: nat, n: nat)
    requires i <= n <= |s| && Run(env, p, s, i).stage == ParseError && !Run(env, p, s, i).sink.fault
    ensures var a, b := Run(env, p, s, i), Run(env, p, s, n);
            && b.stage == ParseError && !b.sink.fault && b.params == a.params && b.sink.uploads == a.sink.uploads
            && (n > i ==> !b.sink.hasBuffer && b.sink.chunk == "")
    decreases n
  {
    hide Data, Open, Header;
    if n > i {
      ErrorStays(env, p, s, i, n - 1);
    }
  }

  /** The blank line in front of a file's content starts the item exactly if there is memory for its
      buffer. Without it the request fails, and whatever follows, nothing more is received; a
      field needs none. */
  lemma MemoryDecides(env: Env, p: Parser, s: string, i: nat, n: nat)
    requires i < n <= |s| && AtHeaders(Run(env, p, s, i)) && s[i] == '\n'
    ensures var a, b, c := Run(env, p, s, i), Run(env, p, s, i + 1), Run(env, p, s, n);
            if a.sink.head.isFile && a.parsed in env.denied then
              c.stage == ParseError && c.params == a.params && c.sink.uploads == a.sink.uploads && !c.sink.hasBuffer
            else
              b.stage == WaitForReturn1 && Takes(b.sink) && b.sink.value == "" && b.sink.size == 0
  {
    hide HeaderLine, Run;
    InHeaders(env, Run(env, p, s, i), s[i], i + 1 == |s|);
    RunMore(env, p, s, i);
    if Run(env, p, s, i + 1).stage == ParseError {
      ErrorStays(env, p, s, i + 1, n);
    }
  }

  lemma RunMore(env: Env, p: Parser, s: string, i: nat)
    requires i < |s|
    ensures Run(env, p, s, i + 1) == Next(env, Run(env, p, s, i), s[i], i + 1 == |s|)
  {
    hide Next;
  }

  // ---------------------------------------------------------------------------
  //  Long boundaries
  // ---------------------------------------------------------------------------

  lemma ByteOfLong(env: Env, p: Parser, c: char, last: bool)
    requires |env.boundary| > 256 && p.bp < 256
    ensures Next(env, p, c, last).params == p.params && Next(env, p, c, last).bp < 256
  {
    hide HeaderLine, Pour, Write;
  }

  /** The place in the boundary is an 8-bit number: one of more than 256 characters never ends an
      item, so that no parameter is ever received. */
  lemma {:induction false} LongBoundary(env: Env, p: Parser, s: string, n: nat)
    requires n <= |s| && |env.boundary| > 256 && p.bp < 256
    ensures Run(env, p, s, n).params == p.params && Run(env, p, s, n).bp < 256
  {
    hide Next;
    if n > 0 {
      LongBoundary(env, p, s, n - 1);
      ByteOfLong(env, Run(env, p, s, n - 1), s[n - 1], n == |s|);
    }
  }

  // ---------------------------------------------------------------------------
  //  Files that break off
  // ---------------------------------------------------------------------------

  /** How many calls are marked as the last one of their file. */
  function Finals(us: seq<Upload>): nat {
    if |us| == 0 then 0 else Finals(us[..|us| - 1]) + if us[|us| - 1].final then 1 else 0
  }

  /** A file that is being received, with a callback to hand it to. */
  predicate Receiving(env: Env, k: Sink) {
    env.callback && k.head.isFile && Takes(k)
  }

  /** The body's last byte, written to a file, hands over all there is left of it as final. */
  lemma WriteFinal(env: Env, k: Sink, c: char)
    requires Receiving(env, k)
    ensures var q := Write(env, k, c, true);
            && Receiving(env, q) && q.chunk == "" && Finals(q.uploads) == Finals(k.uploads) + 1
            && Joined(q.uploads) == Joined(k.uploads) + k.chunk + [c]
  {
    var u := Upload(CStr(k.head.filename), k.size + 1 - |k.chunk + [c]|, k.chunk + [c], true);
    assert (k.uploads + [u])[..|k.uploads|] == k.uploads;
    assert Joined(k.uploads) + (k.chunk + [c]) == Joined(k.uploads) + k.chunk + [c];
  }

  lemma {:induction false} PourFinal(env: Env, k: Sink, n: nat)
    requires Receiving(env, k) && n <= |Mark(env)|
    ensures var q := Pour(env, k, Mark(env), n, true);
            && Receiving(env, q) && Finals(q.uploads) == Finals(k.uploads) + n
            && Joined(q.uploads) + q.chunk == Joined(k.uploads) + k.chunk + Mark(env)[..n]
            && (n > 0 ==> q.chunk == "")
  {
    hide Write, Mark, Joined, Finals;
    if n == 0 {
      assert Joined(k.uploads) + k.chunk + Mark(env)[..0] == Joined(k.uploads) + k.chunk;
    } else {
      PourFinal(env, k, n - 1);
      var q, t := Pour(env, k, Mark(env), n - 1, true), Mark(env);
      WriteFinal(env, q, t[n - 1]);
      assert t[..n] == t[..n - 1] + [t[n - 1]];
      Assoc(Joined(k.uploads) + k.chunk, t[..n - 1], [t[n - 1]]);
    }
  }

  /** What was stored and what is held in the chunk are the bytes read. */
  lemma {:induction false} StoredJoined(env: Env, k: Sink, s: string, b: nat, n: nat)
    requires b <= n <= |s| && Receiving(env, k)
    ensures var q := Stored(env, k, s, b, n);
            && Receiving(env, q) && Finals(q.uploads) == Finals(k.uploads)
            && Joined(q.uploads) + q.chunk == Joined(k.uploads) + k.chunk + s[b..n]
  {
    hide Joined, Finals;
    if n == b {
      assert s[b..n] == "";
      assert Joined(k.uploads) + k.chunk + "" == Joined(k.uploads) + k.chunk;
    } else {
      StoredJoined(env, k, s, b, n - 1);
      var q := Stored(env, k, s, b, n - 1);
      WriteOn(env, q, s[n - 1]);
      assert s[b..n] == s[b..n - 1] + [s[n - 1]];
      Assoc(Joined(k.uploads) + k.chunk, s[b..n - 1], [s[n - 1]]);
    }
  }

  lemma WriteOn(env: Env, k: Sink, c: char)
    requires Receiving(env, k)
    ensures var q := Write(env, k, c, false);
            && Receiving(env, q) && Finals(q.uploads) == Finals(k.uploads)
            && Joined(q.uploads) + q.chunk == Joined(k.uploads) + k.chunk + [c]
  {
    var u := Upload(CStr(k.head.filename), k.size + 1 - |k.chunk + [c]|, k.chunk + [c], false);
    assert (k.uploads + [u])[..|k.uploads|] == k.uploads;
    assert Joined(k.uploads) + (k.chunk + [c]) == Joined(k.uploads) + k.chunk + [c];
    assert Joined(k.uploads) + k.chunk + [c] + "" == Joined(k.uploads) + k.chunk + [c];
  }

  /** A body that breaks off in a file: its content has begun at `b`, and no delimiter has ended. If
      the last byte belongs to the file, every byte of it has been handed over, in one final call
      and one more for each byte that was held back; if it may yet belong to a delimiter, no call
      is final and what is held back is lost. In neither case is there a parameter for it. */
  lemma {:induction false} FileBreaksOff(env: Env, p: Parser, s: string, b: nat)
    requires GoodBoundary(env) && b < |s|
    requires Holding(env, Run(env, p, s, b), 0) && Receiving(env, Run(env, p, s, b).sink)
    requires forall j :: b < j <= |s| ==> Matched(env, s, b, j) < Len(env)
    ensures b + Matched(env, s, b, |s| - 1) < |s|
    ensures var a, z := Run(env, p, s, b), Run(env, p, s, |s|);
            var k, given := Matched(env, s, b, |s| - 1), Joined(a.sink.uploads) + a.sink.chunk;
            && z.params == a.params
            && if Matched(env, s, b, |s|) == 0 then
                 Joined(z.sink.uploads) == given + s[b..] && Finals(z.sink.uploads) == Finals(a.sink.uploads) + k + 1
               else if Matched(env, s, b, |s|) == k + 1 then
                 Joined(z.sink.uploads) + z.sink.chunk == given + s[b..|s| - k - 1]
                 && Finals(z.sink.uploads) == Finals(a.sink.uploads)
               else
                 Joined(z.sink.uploads) + z.sink.chunk == given + s[b..|s| - 1]
                 && Finals(z.sink.uploads) == Finals(a.sink.uploads) + k
  {
    hide Write, Deliver, Step, Pour, Joined, Finals, EndsWith, Mark;
    var n := |s| - 1;
    HeldBack(env, p, s, b, n);
    var a, was, k, c := Run(env, p, s, b), Run(env, p, s, n), Matched(env, s, b, n), s[n];
    DataStep(env, was, k, c, true);
    StoredJoined(env, a.sink, s, b, n - k);
    MarkStarts(env);
    var held := Stored(env, a.sink, s, b, n - k);
    PourFinal(env, held, k);
    MarkHeld(env, s, b, n, k);
    Assoc(Joined(a.sink.uploads) + a.sink.chunk, s[b..n - k], s[n - k..n]);
    assert s[b..n] == s[b..n - k] + s[n - k..n];
    RunMore(env, p, s, n);
    if c != Mark(env)[k] && c != '\r' {
      var q := Pour(env, held, Mark(env), k, true);
      WriteFinal(env, q, c);
      assert s[b..] == s[b..n] + [c];
      Assoc(Joined(a.sink.uploads) + a.sink.chunk, s[b..n], [c]);
    }
  }

  lemma MarkHeld(env: Env, s: string, b: nat, n: nat, k: nat)
    requires EndsWith(env, s, b, n, k)
    ensures Mark(env)[..k] == s[n - k..n]
  {
    hide Mark;
    forall i | 0 <= i < k
      ensures Mark(env)[i] == s[n - k..n][i]
    {
      assert Mark(env)[i] == s[n - k + i];
    }
  }
}
