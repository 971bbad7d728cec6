/** Line framing of the Codex app-server's output (codexBridge.ts): chunks arrive
    cut anywhere, complete lines are trimmed and handled, the rest is kept. */
module CodexFraming {

  const MAX_BUFFER_BYTES: nat := 33_554_432 // 32 * 1024 * 1024

  /** Buffer.byteLength(_, "utf8") */
  function CharBytes(c: char): nat
  {
    if c as int < 0x80 then 1 else if c as int < 0x800 then 2 else if c as int < 0x10000 then 3 else 4
  }

  function ByteLength(s: string): nat
  {
    if s == "" then 0 else CharBytes(s[0]) + ByteLength(s[1..])
  }

  /** The UTF-8 encoding of a character. */
  function Utf8(c: char): (bytes: seq<int>)
    ensures forall i :: 0 <= i < |bytes| ==> 0 <= bytes[i] < 256
  {
    var n := c as int;
    if n < 0x80 then [n]
    else if n < 0x800 then [0xC0 + n / 0x40, 0x80 + n % 0x40]
    else if n < 0x10000 then [0xE0 + n / 0x1000, 0x80 + n / 0x40 % 0x40, 0x80 + n % 0x40]
    else [0xF0 + n / 0x40000, 0x80 + n / 0x1000 % 0x40, 0x80 + n / 0x40 % 0x40, 0x80 + n % 0x40]
  }

  function Encoded(s: string): seq<int>
  {
    if s == "" then [] else Utf8(s[0]) + Encoded(s[1..])
  }

  /** The byte length is that of the UTF-8 encoding. */
  lemma {:induction false} ByteLengthIsUtf8(s: string)
    ensures ByteLength(s) == |Encoded(s)|
  {
    if s == "" {
    } else {
      ByteLengthIsUtf8(s[1..]);
    }
  }

  // ---- String.prototype.trim ----

  predicate IsSpace(c: char)
  {
    var n := c as int;
    || 9 <= n <= 13 || n == 0x20 || n == 0xA0 || n == 0x1680 || 0x2000 <= n <= 0x200A
    || n == 0x2028 || n == 0x2029 || n == 0x202F || n == 0x205F || n == 0x3000 || n == 0xFEFF
  }

  function TrimStart(s: string): (r: string)
    ensures |r| <= |s| && r == s[|s| - |r|..]
    ensures r != "" ==> !IsSpace(r[0])
    ensures forall i :: 0 <= i < |s| - |r| ==> IsSpace(s[i])
  {
    if s == "" || !IsSpace(s[0]) then s else TrimStart(s[1..])
  }

  function TrimEnd(s: string): (r: string)
    ensures |r| <= |s| && r == s[..|r|]
    ensures r != "" ==> !IsSpace(r[|r| - 1])
    ensures forall i :: |r| <= i < |s| ==> IsSpace(s[i])
  {
    if s == "" || !IsSpace(s[|s| - 1]) then s else TrimEnd(s[..|s| - 1])
  }

  function Trim(s: string): string { TrimEnd(TrimStart(s)) }

  /** A line is dropped exactly when it holds nothing but white space. */
  lemma TrimmedAwayIff(s: string)
    ensures Trim(s) == "" <==> forall i :: 0 <= i < |s| ==> IsSpace(s[i])
  {
    var t := TrimStart(s);
    if t != "" { assert s[|s| - |t|] == t[0]; }
  }

  // ---- What the output means ----

  /** indexOf("\n"), with the length standing for "not found". */
  function Newline(s: string): (i: nat)
    ensures i <= |s| && (i < |s| ==> s[i] == '\n') && '\n' !in s[..i]
  {
    if s == "" || s[0] == '\n' then 0 else
    var i := Newline(s[1..]) + 1;
    assert s[..i] == [s[0]] + s[1..][..i - 1];
    i
  }

  /** The newline-terminated pieces of an output. */
  function Pieces(s: string): seq<string>
    decreases |s|
  {
    var i := Newline(s);
    if i == |s| then [] else [s[..i]] + Pieces(s[i + 1..])
  }

  function Remainder(s: string): string
    decreases |s|
  {
    var i := Newline(s);
    if i == |s| then s else Remainder(s[i + 1..])
  }

  /** The lines handed to handleMessage. */
  function Handled(pieces: seq<string>): seq<string>
  {
    if pieces == [] then []
    else (if Trim(pieces[0]) == "" then [] else [Trim(pieces[0])]) + Handled(pieces[1..])
  }

  function Joined(pieces: seq<string>): string
  {
    if pieces == [] then "" else pieces[0] + "\n" + Joined(pieces[1..])
  }

  /** Pieces and remainder rebuild the output. */
  lemma {:induction false} PiecesRebuild(s: string)
    ensures Joined(Pieces(s)) + Remainder(s) == s
    decreases |s|
  {
    var i := Newline(s);
    if i < |s| {
      var rest := s[i + 1..];
      PiecesRebuild(rest);
      TakePiece(s);
      SplitAt(s, i);
      hide *;
      JoinedFirst(s[..i], Pieces(rest), Remainder(rest));
    } else {
      assert Joined([]) + s == s;
    }
  }

  lemma SplitAt(s: string, i: nat)
    requires i < |s| && s[i] == '\n'
    ensures s == s[..i] + ("\n" + s[i + 1..])
  {
  }

  lemma JoinedFirst(p: string, pieces: seq<string>, rest: string)
    ensures Joined([p] + pieces) + rest == p + ("\n" + (Joined(pieces) + rest))
  {
    assert ([p] + pieces)[1..] == pieces;
  }

  lemma TakePiece(s: string)
    requires Newline(s) < |s|
    ensures Pieces(s) == [s[..Newline(s)]] + Pieces(s[Newline(s) + 1..])
    ensures Remainder(s) == Remainder(s[Newline(s) + 1..])
  {
  }

  /** Neither pieces nor remainder contain a newline. */
  lemma {:induction false} PiecesAreLines(s: string)
    ensures '\n' !in Remainder(s)
    ensures forall i :: 0 <= i < |Pieces(s)| ==> '\n' !in Pieces(s)[i]
    decreases |s|
  {
    var i := Newline(s);
    if i < |s| {
      PiecesAreLines(s[i + 1..]);
      TakePiece(s);
      assert '\n' !in s[..i];
    } else {
      assert s[..i] == s;
    }
  }

  /** It is the only way to cut the output into newline-free parts. */
  lemma {:induction false} PiecesUnique(pieces: seq<string>, rest: string)
    requires '\n' !in rest && forall i :: 0 <= i < |pieces| ==> '\n' !in pieces[i]
    ensures Pieces(Joined(pieces) + rest) == pieces && Remainder(Joined(pieces) + rest) == rest
  {
    var s := Joined(pieces) + rest;
    if pieces == [] {
      assert s == rest;
    } else {
      var p, more := pieces[0], Joined(pieces[1..]) + rest;
      assert s == p + "\n" + more;
      FirstNewline(p, more);
      assert s[|p| + 1..] == more && s[..|p|] == p;
      PiecesUnique(pieces[1..], rest);
    }
  }

  lemma {:induction false} FirstNewline(p: string, more: string)
    requires '\n' !in p
    ensures Newline(p + "\n" + more) == |p|
  {
    var s := p + "\n" + more;
    if p != "" {
      assert s[0] == p[0] && p[0] in p;
      assert s[1..] == p[1..] + "\n" + more;
      FirstNewline(p[1..], more);
    }
  }

  /** Cutting an output in two changes nothing. */
  lemma {:induction false} CutAnywhere(a: string, b: string)
    ensures Pieces(a + b) == Pieces(a) + Pieces(Remainder(a) + b)
    ensures Remainder(a + b) == Remainder(Remainder(a) + b)
    decreases |a|
  {
    hide *;
    var i := Newline(a);
    if i < |a| {
      var p, rest := a[..i], a[i + 1..];
      CutAnywhere(rest, b);
      TakePiece(a);
      NewlineInFront(a, b);
      TakePiece(a + b);
      SliceInFront(a, b, i);
      var tail := Remainder(rest) + b;
      Regroup(p, Pieces(rest), Pieces(tail));
    } else {
      NothingToTake(a);
    }
  }

  lemma SliceInFront(a: string, b: string, i: nat)
    requires i < |a|
    ensures (a + b)[i + 1..] == a[i + 1..] + b && (a + b)[..i] == a[..i]
  {
  }

  lemma Regroup(p: string, a: seq<string>, b: seq<string>)
    ensures [p] + (a + b) == ([p] + a) + b
  {
  }

  lemma NewlineInFront(a: string, b: string)
    requires Newline(a) < |a|
    ensures Newline(a + b) == Newline(a)
  {
    var i := Newline(a);
    assert a + b == a[..i] + "\n" + (a[i + 1..] + b);
    FirstNewline(a[..i], a[i + 1..] + b);
  }

  lemma NothingToTake(s: string)
    requires Newline(s) == |s|
    ensures Pieces(s) == [] && Remainder(s) == s
  {
  }

  lemma {:induction false} HandledConcat(a: seq<string>, b: seq<string>)
    ensures Handled(a + b) == Handled(a) + Handled(b)
  {
    hide Trim;
    if a == [] {
      assert a + b == b;
    } else {
      assert (a + b)[1..] == a[1..] + b;
      HandledConcat(a[1..], b);
    }
  }

  // ---- Chunks ----

  /** The lines handled so far, the buffer, and whether a chunk overflowed it. */
  datatype Output = Output(handled: seq<string>, buffer: string, overflowed: bool)

  function Feed(o: Output, chunk: string): Output
  {
    var all := o.buffer + chunk;
    if ByteLength(all) > MAX_BUFFER_BYTES then Output(o.handled, "", true)
    else Output(o.handled + Handled(Pieces(all)), Remainder(all), o.overflowed)
  }

  function FeedAll(chunks: seq<string>): Output
  {
    if chunks == [] then Output([], "", false) else Feed(FeedAll(chunks[..|chunks| - 1]), chunks[|chunks| - 1])
  }

  function Concat(chunks: seq<string>): string
  {
    if chunks == [] then "" else Concat(chunks[..|chunks| - 1]) + chunks[|chunks| - 1]
  }

  /** A chunk that, with the unfinished line before it, exceeds the limit. */
  ghost predicate TooMuch(chunks: seq<string>, i: nat)
    requires i < |chunks|
  {
    ByteLength(Remainder(Concat(chunks[..i])) + chunks[i]) > MAX_BUFFER_BYTES
  }

  /** Chunks that never overflow are read as one output. */
  lemma {:induction false} FedAsOne(chunks: seq<string>)
    requires !FeedAll(chunks).overflowed
    ensures FeedAll(chunks) == Output(Handled(Pieces(Concat(chunks))), Remainder(Concat(chunks)), false)
  {
    if chunks == [] {
    } else {
      var init, last := chunks[..|chunks| - 1], chunks[|chunks| - 1];
      FedAsOne(init);
      FeedPieces(Concat(init), last);
    }
  }

  lemma FeedPieces(all: string, chunk: string)
    ensures var o := Output(Handled(Pieces(all)), Remainder(all), false);
      !Feed(o, chunk).overflowed ==>
        Feed(o, chunk) == Output(Handled(Pieces(all + chunk)), Remainder(all + chunk), false)
  {
    hide Pieces;
    hide Remainder;
    hide Handled;
    CutAnywhere(all, chunk);
    HandledConcat(Pieces(all), Pieces(Remainder(all) + chunk));
  }

  lemma {:induction false} OverflowsIff(chunks: seq<string>)
    ensures FeedAll(chunks).overflowed <==> exists i :: 0 <= i < |chunks| && TooMuch(chunks, i)
  {
    hide Pieces;
    hide Remainder;
    hide Handled;
    hide ByteLength;
    if chunks == [] {
    } else {
      var n := |chunks| - 1;
      var init, last := chunks[..n], chunks[n];
      OverflowsIff(init);
      EarlierChunk(chunks);
      if !FeedAll(init).overflowed {
        FedAsOne(init);
        assert TooMuch(chunks, n) <==> FeedAll(chunks).overflowed;
      } else {
        var i :| 0 <= i < n && TooMuch(init, i);
        assert TooMuch(chunks, i);
      }
    }
  }

  lemma EarlierChunk(chunks: seq<string>)
    requires chunks != []
    ensures var init := chunks[..|chunks| - 1];
      forall i :: 0 <= i < |init| ==> (TooMuch(chunks, i) <==> TooMuch(init, i))
  {
    var init := chunks[..|chunks| - 1];
    forall i | 0 <= i < |init| ensures TooMuch(chunks, i) <==> TooMuch(init, i) {
      assert init[..i] == chunks[..i];
    }
  }

  /** However the output is cut, the handled lines and the buffer are those of the
      whole output, unless some chunk is too much, and exactly then it overflows. */
  lemma ChunksDoNotMatter(chunks: seq<string>)
    ensures FeedAll(chunks).overflowed <==> exists i :: 0 <= i < |chunks| && TooMuch(chunks, i)
    ensures !FeedAll(chunks).overflowed ==>
      FeedAll(chunks) == Output(Handled(Pieces(Concat(chunks))), Remainder(Concat(chunks)), false)
  {
    hide FeedAll;
    OverflowsIff(chunks);
    if !FeedAll(chunks).overflowed { FedAsOne(chunks); }
  }

  /** A chunk that is too much is dropped with the unfinished line before it, and reading
      starts over: what follows is handled as if it came first. */
  lemma {:induction false} OverflowStartsOver(chunks: seq<string>, more: seq<string>)
    requires chunks != []
    requires var n := |chunks| - 1; ByteLength(FeedAll(chunks[..n]).buffer + chunks[n]) > MAX_BUFFER_BYTES
    ensures FeedAll(chunks + more).handled == FeedAll(chunks[..|chunks| - 1]).handled + FeedAll(more).handled
    ensures FeedAll(chunks + more).buffer == FeedAll(more).buffer && FeedAll(chunks + more).overflowed
  {
    hide Pieces;
    hide Remainder;
    hide Handled;
    hide ByteLength;
    if more == [] {
      assert chunks + more == chunks;
      assert FeedAll(chunks[..|chunks| - 1]).handled + [] == FeedAll(chunks[..|chunks| - 1]).handled;
    } else {
      var init, last := more[..|more| - 1], more[|more| - 1];
      assert (chunks + more)[..|chunks + more| - 1] == chunks + init;
      OverflowStartsOver(chunks, init);
    }
  }

  /** Two ways of cutting the same output agree. */
  lemma SameOutputSameLines(a: seq<string>, b: seq<string>)
    requires Concat(a) == Concat(b) && !FeedAll(a).overflowed && !FeedAll(b).overflowed
    ensures FeedAll(a) == FeedAll(b)
  {
    ChunksDoNotMatter(a);
    ChunksDoNotMatter(b);
  }

  // ---- The bridge's buffer ----

  lemma TakeLine(s: string)
    requires Newline(s) < |s|
    ensures var p, rest := s[..Newline(s)], s[Newline(s) + 1..];
      && Handled(Pieces(s)) == (if Trim(p) == "" then [] else [Trim(p)]) + Handled(Pieces(rest))
      && Remainder(s) == Remainder(rest)
  {
    TakePiece(s);
    hide Pieces;
    hide Remainder;
    hide Trim;
    var p, rest := s[..Newline(s)], s[Newline(s) + 1..];
    assert ([p] + Pieces(rest))[1..] == Pieces(rest);
  }

  lemma NothingHandled()
    ensures Handled([]) == []
  {
  }

  class StdoutReader {
    var stdoutBuffer: string
    var handled: seq<string>
    var overflowed: bool

    ghost function View(): Output reads this { Output(handled, stdoutBuffer, overflowed) }

    constructor ()
      ensures View() == FeedAll([])
    {
      stdoutBuffer, handled, overflowed := "", [], false;
    }

    method HandleStdoutChunk(chunk: string)
      modifies this
      ensures View() == Feed(old(View()), chunk)
    {
      hide Pieces;
      hide Remainder;
      hide Handled;
      hide ByteLength;
      hide Trim;
      stdoutBuffer := stdoutBuffer + chunk;
      ghost var all := stdoutBuffer;
      if ByteLength(stdoutBuffer) > MAX_BUFFER_BYTES {
        stdoutBuffer, overflowed := "", true;
        return;
      }
      while true
        invariant handled + Handled(Pieces(stdoutBuffer)) == old(handled) + Handled(Pieces(all))
        invariant Remainder(stdoutBuffer) == Remainder(all)
        invariant overflowed == old(overflowed)
        decreases |stdoutBuffer|
      {
        var newlineIndex := Newline(stdoutBuffer);
        if newlineIndex == |stdoutBuffer| {
          NothingToTake(stdoutBuffer);
          NothingHandled();
          return;
        }
        var line := Trim(stdoutBuffer[..newlineIndex]);
        TakeLine(stdoutBuffer);
        stdoutBuffer := stdoutBuffer[newlineIndex + 1..];
        if line != "" { handled := handled + [line]; }
      }
    }
  }
}
