/**
 Newline framing at both ends of the control socket: the daemon's byte loop
 (native_engine/src/main.c) and the client's reader (audio_engine/native_engine.py).

 `Pieces` and `Rest` cut a stream at its newlines.  Both ends are proved to deliver the
 pieces of the whole stream, stripped and without the blank ones, however it is chunked.
 */
module LineFraming {

  type Byte = b: int | 0 <= b < 256

  const NEWLINE: Byte := 10
  const RETURN: Byte := 13

  /** The daemon's limit on a message, without carriage returns, and the client's limit on
      what is left without a newline after a chunk. */
  const DAEMON_LIMIT := 1024 * 1024
  const CLIENT_LIMIT := 4 * 1024 * 1024

  /** The largest chunk either end receives. */
  const CHUNK := 65536

  // ---------- Cutting a stream at its newlines ----------

  function Pieces(s: seq<Byte>): seq<seq<Byte>>
  {
    if s == [] then []
    else
      var front := s[..|s| - 1];
      if s[|s| - 1] == NEWLINE then Pieces(front) + [Rest(front)] else Pieces(front)
  }

  function Rest(s: seq<Byte>): seq<Byte>
  {
    if s == [] || s[|s| - 1] == NEWLINE then [] else Rest(s[..|s| - 1]) + [s[|s| - 1]]
  }

  function Join(pieces: seq<seq<Byte>>): seq<Byte>
  {
    if pieces == [] then [] else Join(pieces[..|pieces| - 1]) + pieces[|pieces| - 1] + [NEWLINE]
  }

  lemma AddByte(s: seq<Byte>, b: Byte)
    ensures Pieces(s + [b]) == if b == NEWLINE then Pieces(s) + [Rest(s)] else Pieces(s)
    ensures Rest(s + [b]) == if b == NEWLINE then [] else Rest(s) + [b]
  {
    assert (s + [b])[..|s|] == s;
  }

  lemma LastByte(s: seq<Byte>, t: seq<Byte>)
    requires t != []
    ensures s + t == (s + t[..|t| - 1]) + [t[|t| - 1]]
  {
  }

  lemma Regroup<T>(a: seq<T>, b: seq<T>, c: seq<T>)
    ensures a + (b + c) == (a + b) + c
  {
  }

  /** Cutting goes on from what is left. */
  lemma {:induction false} CutGoesOn(s: seq<Byte>, t: seq<Byte>)
    ensures Pieces(s + t) == Pieces(s) + Pieces(Rest(s) + t)
    ensures Rest(s + t) == Rest(Rest(s) + t)
  {
    if t == [] {
      assert s + t == s && Rest(s) + t == Rest(s);
      RestIsOnePiece(s);
    } else {
      var front, last := t[..|t| - 1], t[|t| - 1];
      CutGoesOn(s, front);
      LastByte(s, t);
      LastByte(Rest(s), t);
      AddByte(s + front, last);
      AddByte(Rest(s) + front, last);
      Regroup(Pieces(s), Pieces(Rest(s) + front), [Rest(s + front)]);
    }
  }

  lemma {:induction false} RestIsOnePiece(s: seq<Byte>)
    ensures Pieces(Rest(s)) == [] && Rest(Rest(s)) == Rest(s)
  {
    if s != [] && s[|s| - 1] != NEWLINE {
      RestIsOnePiece(s[..|s| - 1]);
      AddByte(Rest(s[..|s| - 1]), s[|s| - 1]);
    }
  }

  lemma {:induction false} NoNewlineNoPiece(s: seq<Byte>)
    requires NEWLINE !in s
    ensures Pieces(s) == [] && Rest(s) == s
  {
    if s != [] {
      NoNewlineNoPiece(s[..|s| - 1]);
      assert s == s[..|s| - 1] + [s[|s| - 1]];
    }
  }

  /** The pieces are what was joined: cutting inverts joining, */
  lemma {:induction false} PiecesOfJoin(pieces: seq<seq<Byte>>, rest: seq<Byte>)
    requires NEWLINE !in rest && forall i :: 0 <= i < |pieces| ==> NEWLINE !in pieces[i]
    ensures Pieces(Join(pieces) + rest) == pieces && Rest(Join(pieces) + rest) == rest
  {
    if pieces == [] {
      assert Join(pieces) + rest == rest;
      NoNewlineNoPiece(rest);
    } else {
      var front, last := pieces[..|pieces| - 1], pieces[|pieces| - 1];
      PiecesOfJoin(front, last);
      AddByte(Join(front) + last, NEWLINE);
      assert pieces == front + [last];
      CutGoesOn(Join(pieces), rest);
      NoNewlineNoPiece(rest);
      assert [] + rest == rest && pieces + [] == pieces;
    }
  }

  /** and every stream is a join of its pieces. */
  lemma {:induction false} JoinOfPieces(s: seq<Byte>)
    ensures Join(Pieces(s)) + Rest(s) == s
    ensures NEWLINE !in Rest(s) && forall i :: 0 <= i < |Pieces(s)| ==> NEWLINE !in Pieces(s)[i]
  {
    if s != [] {
      var front, last := s[..|s| - 1], s[|s| - 1];
      JoinOfPieces(front);
      assert s == front + [last];
      if last == NEWLINE {
        assert Pieces(s)[..|Pieces(front)|] == Pieces(front);
      }
    }
  }

  // ---------- The daemon ----------

  function WithoutReturns(s: seq<Byte>): (r: seq<Byte>)
    ensures RETURN !in r && |r| <= |s|
  {
    if s == [] then []
    else WithoutReturns(s[..|s| - 1]) + if s[|s| - 1] == RETURN then [] else [s[|s| - 1]]
  }

  /** The messages the daemon handles: pieces without carriage returns, when not empty. */
  function Handled(pieces: seq<seq<Byte>>): (r: seq<seq<Byte>>)
  {
    if pieces == [] then []
    else
      var before, m := Handled(pieces[..|pieces| - 1]), WithoutReturns(pieces[|pieces| - 1]);
      if m == [] then before else before + [m]
  }

  /** At no point of the stream is the message under way over the limit. */
  predicate Fits(s: seq<Byte>)
  {
    s == [] || (Fits(s[..|s| - 1]) && |WithoutReturns(Rest(s))| <= DAEMON_LIMIT)
  }

  predicate AllFit(pieces: seq<seq<Byte>>)
  {
    forall i :: 0 <= i < |pieces| ==> |WithoutReturns(pieces[i])| <= DAEMON_LIMIT
  }

  /** That is, exactly when no message is over the limit. */
  lemma {:induction false} FitsExactlyWhen(s: seq<Byte>)
    ensures Fits(s) <==> |WithoutReturns(Rest(s))| <= DAEMON_LIMIT && AllFit(Pieces(s))
  {
    if s == [] {
      assert Rest(s) == [] && Pieces(s) == [];
    } else {
      var front, last := s[..|s| - 1], s[|s| - 1];
      assert s == front + [last];
      FitsExactlyWhen(front);
      AddByte(front, last);
      if last == NEWLINE {
        OnePieceMore(Pieces(front), Rest(front));
      } else {
        WithoutReturnsAdd(Rest(front), last);
      }
    }
  }

  lemma OnePieceMore(pieces: seq<seq<Byte>>, piece: seq<Byte>)
    ensures AllFit(pieces + [piece]) <==> AllFit(pieces) && |WithoutReturns(piece)| <= DAEMON_LIMIT
  {
    var all := pieces + [piece];
    assert all[|pieces|] == piece && forall i :: 0 <= i < |pieces| ==> all[i] == pieces[i];
  }

  /** None of the messages complete so far is one of those whose handling fails. */
  predicate Served(s: seq<Byte>, failing: set<nat>)
  {
    forall i :: i in failing ==> |Handled(Pieces(s))| <= i
  }

  /** The client is kept: no message is too large, and no handling failed. */
  predicate Kept(s: seq<Byte>, failing: set<nat>)
  {
    Fits(s) && Served(s, failing)
  }

  /** A connection of the daemon (serve_client): the message under way in its buffer, and the
      number of messages handled.  `failing` are the numbers of the messages whose handling
      fails, whatever they are. */
  class Connection {
    const message: array<Byte>
    const failing: set<nat>
    var used: nat
    var count: nat

    /** The buffer holds what is left of the bytes received so far. */
    ghost predicate Holds(received: seq<Byte>)
      reads this, message
    {
      && message.Length == DAEMON_LIMIT + 1 && used <= DAEMON_LIMIT
      && message[..used] == WithoutReturns(Rest(received)) && Fits(received)
      && count == |Handled(Pieces(received))| && Served(received, failing)
    }

    constructor (failing: set<nat>)
      ensures Holds([]) && fresh(message) && this.failing == failing
    {
      message := new Byte[DAEMON_LIMIT + 1](i => 0);
      used, count := 0, 0;
      this.failing := failing;
    }

    method Append(b: Byte)
      requires used < message.Length
      modifies this`used, message
      ensures used == old(used) + 1 <= message.Length && message[..used] == old(message[..used]) + [b]
    {
      message[used] := b;
      used := used + 1;
    }

    /** One byte; `ok` is false when the message is too large or its handling fails. */
    method ReceiveByte(b: Byte, ghost received: seq<Byte>, ghost after: seq<Byte>)
        returns (handled: seq<seq<Byte>>, ok: bool)
      requires Holds(received) && after == received + [b]
      modifies this`used, this`count, message
      ensures Adds(received, after, handled) && (ok <==> Kept(after, failing))
      ensures ok ==> Holds(after)
    {
      ghost var partial := message[..used];
      ByteStep(received, partial, b, after);
      handled, ok := [], true;
      if b == NEWLINE {
        if used > 0 {
          handled := [message[..used]];
          ok := count !in failing;
          count := count + 1;
        }
        used := 0;
        assert message[..used] == [];
      } else if b != RETURN {
        if used >= DAEMON_LIMIT { return handled, false; }
        Append(b);
      }
    }

    /** One chunk: the client is dropped at the first byte at which a message is too large or
        its handling fails. */
    method Receive(chunk: seq<Byte>, ghost received: seq<Byte>) returns (handled: seq<seq<Byte>>, ok: bool)
      requires Holds(received)
      modifies this`used, this`count, message
      ensures ok <==> Kept(received + chunk, failing)
      ensures ok ==> Holds(received + chunk) && Adds(received, received + chunk, handled)
      ensures !ok ==> DroppedAt(received, chunk, failing, handled)
    {
      handled, ok := [], true;
      ghost var now := received;
      assert received + chunk[..0] == received;
      for i := 0 to |chunk|
        invariant ok && now == received + chunk[..i] && Holds(now) && Adds(received, now, handled)
      {
        var more;
        more, ok := ReceiveByte(chunk[i], now, now + [chunk[i]]);
        PrefixOfChunk(received, chunk, i, failing);
        AddsMore(received, now, handled, chunk[i], more);
        handled := handled + more;
        if !ok {
          assert DropsAt(received, chunk, failing, handled, i);
          return;
        }
        now := now + [chunk[i]];
      }
      assert received + chunk[..|chunk|] == received + chunk;
    }
  }

  /** The client is kept up to byte `i` of the chunk and not beyond; the messages complete by
      then were handled. */
  predicate DropsAt(received: seq<Byte>, chunk: seq<Byte>, failing: set<nat>, handled: seq<seq<Byte>>, i: nat)
  {
    && i < |chunk| && Kept(received + chunk[..i], failing) && !Kept(received + chunk[..i + 1], failing)
    && Adds(received, received + chunk[..i + 1], handled)
  }

  predicate DroppedAt(received: seq<Byte>, chunk: seq<Byte>, failing: set<nat>, handled: seq<seq<Byte>>)
  {
    exists i: nat :: i < |chunk| && DropsAt(received, chunk, failing, handled, i)
  }

  /** The messages handled between two points of the stream. */
  predicate Adds(before: seq<Byte>, now: seq<Byte>, handled: seq<seq<Byte>>)
  {
    Handled(Pieces(now)) == Handled(Pieces(before)) + handled
  }

  lemma AddsMore(before: seq<Byte>, now: seq<Byte>, handled: seq<seq<Byte>>, b: Byte, more: seq<seq<Byte>>)
    requires Adds(before, now, handled) && Adds(now, now + [b], more)
    ensures Adds(before, now + [b], handled + more)
  {
    Regroup(Handled(Pieces(before)), handled, more);
  }

  lemma PrefixOfChunk(received: seq<Byte>, chunk: seq<Byte>, i: nat, failing: set<nat>)
    requires i < |chunk|
    ensures received + chunk[..i + 1] == received + chunk[..i] + [chunk[i]]
    ensures !Kept(received + chunk[..i + 1], failing) ==> !Kept(received + chunk, failing)
  {
    var s, t := received + chunk[..i + 1], chunk[i + 1..];
    assert received + chunk == s + t;
    if !Fits(s) { PrefixFits(s, t); }
    HandledGrows(s, t);
  }

  lemma {:induction false} HandledGrows(s: seq<Byte>, t: seq<Byte>)
    ensures |Handled(Pieces(s))| <= |Handled(Pieces(s + t))|
  {
    if t == [] {
      assert s + t == s;
    } else {
      var front, last := t[..|t| - 1], t[|t| - 1];
      HandledGrows(s, front);
      LastByte(s, t);
      AddByte(s + front, last);
      HandledAdd(Pieces(s + front), Rest(s + front));
    }
  }

  /** What one more byte changes, with `partial` the message under way. */
  lemma ByteStep(received: seq<Byte>, partial: seq<Byte>, b: Byte, after: seq<Byte>)
    requires Fits(received) && partial == WithoutReturns(Rest(received)) && |partial| <= DAEMON_LIMIT
    requires after == received + [b]
    ensures Fits(after) <==> b == NEWLINE || b == RETURN || |partial| < DAEMON_LIMIT
    ensures WithoutReturns(Rest(after)) == if b == NEWLINE then [] else if b == RETURN then partial else partial + [b]
    ensures Adds(received, after, if b == NEWLINE && partial != [] then [partial] else [])
  {
    AddByte(received, b);
    assert after[..|received|] == received && after[|received|] == b;
    if b == NEWLINE {
      HandledAdd(Pieces(received), Rest(received));
    } else {
      WithoutReturnsAdd(Rest(received), b);
      assert partial + [] == partial && Handled(Pieces(received)) + [] == Handled(Pieces(received));
    }
  }

  lemma WithoutReturnsAdd(s: seq<Byte>, b: Byte)
    ensures WithoutReturns(s + [b]) == WithoutReturns(s) + if b == RETURN then [] else [b]
  {
    assert (s + [b])[..|s|] == s;
  }

  lemma HandledAdd(pieces: seq<seq<Byte>>, piece: seq<Byte>)
    ensures Handled(pieces + [piece]) ==
            Handled(pieces) + if WithoutReturns(piece) == [] then [] else [WithoutReturns(piece)]
  {
    assert (pieces + [piece])[..|pieces|] == pieces;
    assert Handled(pieces) + [] == Handled(pieces);
  }

  lemma {:induction false} PrefixFits(s: seq<Byte>, t: seq<Byte>)
    requires !Fits(s)
    ensures !Fits(s + t)
  {
    if t == [] {
      assert s + t == s;
    } else {
      PrefixFits(s, t[..|t| - 1]);
      assert (s + t)[..|s + t| - 1] == s + t[..|t| - 1];
    }
  }

  // ---------- The client ----------

  /** What bytes.strip() takes off. */
  predicate IsBlank(b: Byte) { b == 32 || 9 <= b <= 13 }

  function Stripped(s: seq<Byte>): (r: seq<Byte>)
    ensures |r| <= |s| && (r != [] ==> !IsBlank(r[0]) && !IsBlank(r[|r| - 1]))
    ensures s != [] && !IsBlank(s[0]) && !IsBlank(s[|s| - 1]) ==> r == s
  {
    if s == [] then []
    else if IsBlank(s[0]) then Stripped(s[1..])
    else if IsBlank(s[|s| - 1]) then Stripped(s[..|s| - 1])
    else s
  }

  /** The messages the client decodes: pieces stripped, when not empty. */
  function Decoded(pieces: seq<seq<Byte>>): seq<seq<Byte>>
  {
    if pieces == [] then []
    else
      var before, m := Decoded(pieces[..|pieces| - 1]), Stripped(pieces[|pieces| - 1]);
      if m == [] then before else before + [m]
  }

  lemma DecodedAdd(pieces: seq<seq<Byte>>, piece: seq<Byte>)
    ensures Decoded(pieces + [piece]) == Decoded(pieces) + if Stripped(piece) == [] then [] else [Stripped(piece)]
  {
    assert (pieces + [piece])[..|pieces|] == pieces;
    assert Decoded(pieces) + [] == Decoded(pieces);
  }

  /** The messages decoded between two points of the stream. */
  predicate Yields(before: seq<Byte>, now: seq<Byte>, lines: seq<seq<Byte>>)
  {
    Decoded(Pieces(now)) == Decoded(Pieces(before)) + lines
  }

  /** A point of the stream just after a newline, and the bytes that follow. */
  predicate CutAt(done: seq<Byte>, todo: seq<Byte>, stream: seq<Byte>)
  {
    done + todo == stream && Rest(done) == []
  }

  lemma StartCut(received: seq<Byte>, chunk: seq<Byte>)
    ensures CutAt(Join(Pieces(received)), Rest(received) + chunk, received + chunk)
    ensures Pieces(Join(Pieces(received))) == Pieces(received)
  {
    JoinOfPieces(received);
    PiecesOfJoin(Pieces(received), []);
    assert Join(Pieces(received)) + [] == Join(Pieces(received));
    Regroup(Join(Pieces(received)), Rest(received), chunk);
  }

  lemma NextCut(done: seq<Byte>, todo: seq<Byte>, stream: seq<Byte>, k: nat)
    requires CutAt(done, todo, stream) && k < |todo| && todo[k] == NEWLINE && NEWLINE !in todo[..k]
    ensures CutAt(done + todo[..k] + [NEWLINE], todo[k + 1..], stream)
    ensures Pieces(done + todo[..k] + [NEWLINE]) == Pieces(done) + [todo[..k]]
  {
    var piece := todo[..k];
    assert todo == piece + [NEWLINE] + todo[k + 1..];
    assert done + piece + [NEWLINE] + todo[k + 1..] == done + todo;
    CutGoesOn(done, piece);
    assert [] + piece == piece;
    NoNewlineNoPiece(piece);
    assert Pieces(done) + [] == Pieces(done);
    AddByte(done + piece, NEWLINE);
  }

  lemma LastCut(done: seq<Byte>, todo: seq<Byte>, stream: seq<Byte>)
    requires CutAt(done, todo, stream) && NEWLINE !in todo
    ensures Pieces(stream) == Pieces(done) && Rest(stream) == todo
  {
    CutGoesOn(done, todo);
    assert [] + todo == todo;
    NoNewlineNoPiece(todo);
    assert Pieces(done) + [] == Pieces(done);
  }

  /** buffer.find(newline) */
  method FindNewline(s: seq<Byte>) returns (k: int)
    ensures k == -1 ==> NEWLINE !in s
    ensures k != -1 ==> 0 <= k < |s| && s[k] == NEWLINE && NEWLINE !in s[..k]
  {
    for i := 0 to |s|
      invariant NEWLINE !in s[..i]
    {
      if s[i] == NEWLINE { return i; }
      assert s[..i + 1] == s[..i] + [s[i]];
    }
    assert s[..|s|] == s;
    k := -1;
  }

  /** The client's reader of one connection (_reader_loop). */
  class Reader {
    var buffer: seq<Byte>

    constructor ()
      ensures buffer == Rest([])
    {
      buffer := [];
    }

    /** One chunk: `ok` is false when what is left is too long, and the reader gives up. */
    method ReadChunk(chunk: seq<Byte>, ghost received: seq<Byte>) returns (lines: seq<seq<Byte>>, ok: bool)
      requires buffer == Rest(received)
      modifies this
      ensures buffer == Rest(received + chunk) && Yields(received, received + chunk, lines)
      ensures ok <==> |Rest(received + chunk)| <= CLIENT_LIMIT
    {
      ghost var done, stream := Join(Pieces(received)), received + chunk;
      StartCut(received, chunk);
      lines := [];
      buffer := buffer + chunk;
      while true
        invariant CutAt(done, buffer, stream) && Yields(received, done, lines)
        decreases |buffer|
      {
        var newline := FindNewline(buffer);
        if newline < 0 {
          LastCut(done, buffer, stream);
          return lines, |buffer| <= CLIENT_LIMIT;
        }
        var rawLine := Stripped(buffer[..newline]);
        NextCut(done, buffer, stream, newline);
        DecodedAdd(Pieces(done), buffer[..newline]);
        YieldsMore(received, done, lines, rawLine);
        done := done + buffer[..newline] + [NEWLINE];
        buffer := buffer[newline + 1..];
        if |rawLine| == 0 { continue; }
        lines := lines + [rawLine];
      }
    }
  }

  lemma YieldsMore(received: seq<Byte>, done: seq<Byte>, lines: seq<seq<Byte>>, line: seq<Byte>)
    requires Yields(received, done, lines)
    ensures Decoded(Pieces(done)) + [line] == Decoded(Pieces(received)) + (lines + [line])
    ensures Decoded(Pieces(done)) + [] == Decoded(Pieces(received)) + lines
  {
  }

  // ---------- Any chunking ----------

  function Flat<T>(parts: seq<seq<T>>): seq<T>
  {
    if parts == [] then [] else Flat(parts[..|parts| - 1]) + parts[|parts| - 1]
  }

  /** The bytes of the first `n` chunks. */
  function Sent(chunks: seq<seq<Byte>>, n: nat): seq<Byte>
    requires n <= |chunks|
  {
    if n == 0 then [] else Sent(chunks, n - 1) + chunks[n - 1]
  }

  /** However the stream is cut into chunks, the daemon handles the messages of the whole. */
  lemma {:induction false} DaemonHandlesTheStream(chunks: seq<seq<Byte>>, handled: seq<seq<seq<Byte>>>, n: nat)
    requires |handled| == |chunks| && n <= |chunks|
    requires forall i :: 0 <= i < |chunks| ==> Adds(Sent(chunks, i), Sent(chunks, i + 1), handled[i])
    ensures Handled(Pieces(Sent(chunks, n))) == Flat(handled[..n])
  {
    if n > 0 {
      DaemonHandlesTheStream(chunks, handled, n - 1);
      assert handled[..n][..n - 1] == handled[..n - 1];
      assert Adds(Sent(chunks, n - 1), Sent(chunks, n - 1 + 1), handled[n - 1]);
    }
  }

  /** And the client decodes the messages of the whole. */
  lemma {:induction false} ClientDecodesTheStream(chunks: seq<seq<Byte>>, lines: seq<seq<seq<Byte>>>, n: nat)
    requires |lines| == |chunks| && n <= |chunks|
    requires forall i :: 0 <= i < |chunks| ==> Yields(Sent(chunks, i), Sent(chunks, i + 1), lines[i])
    ensures Decoded(Pieces(Sent(chunks, n))) == Flat(lines[..n])
  {
    if n > 0 {
      ClientDecodesTheStream(chunks, lines, n - 1);
      assert lines[..n][..n - 1] == lines[..n - 1];
      assert Yields(Sent(chunks, n - 1), Sent(chunks, n - 1 + 1), lines[n - 1]);
    }
  }

  function NonEmpty(pieces: seq<seq<Byte>>): seq<seq<Byte>>
  {
    if pieces == [] then []
    else NonEmpty(pieces[..|pieces| - 1]) + if pieces[|pieces| - 1] == [] then [] else [pieces[|pieces| - 1]]
  }

  /** A line as either end writes it: without newlines, carriage returns or outer blanks. */
  predicate CleanLine(line: seq<Byte>)
  {
    NEWLINE !in line && RETURN !in line && (line != [] ==> !IsBlank(line[0]) && !IsBlank(line[|line| - 1]))
  }

  lemma {:induction false} NoReturns(s: seq<Byte>)
    requires RETURN !in s
    ensures WithoutReturns(s) == s
  {
    if s != [] {
      NoReturns(s[..|s| - 1]);
      assert s == s[..|s| - 1] + [s[|s| - 1]];
    }
  }

  lemma {:induction false} CleanLinesPass(lines: seq<seq<Byte>>)
    requires forall i :: 0 <= i < |lines| ==> CleanLine(lines[i])
    ensures Handled(lines) == NonEmpty(lines) && Decoded(lines) == NonEmpty(lines)
  {
    if lines != [] {
      var front, last := lines[..|lines| - 1], lines[|lines| - 1];
      CleanLinesPass(front);
      assert CleanLine(last);
      NoReturns(last);
      assert NonEmpty(front) + [] == NonEmpty(front);
    }
  }

  /** Clean lines, each followed by a newline and sent in any chunks, arrive at either end as
      they were, the empty ones dropped. */
  lemma LinesArrive(lines: seq<seq<Byte>>, chunks: seq<seq<Byte>>, handled: seq<seq<seq<Byte>>>,
                    decoded: seq<seq<seq<Byte>>>)
    requires forall i :: 0 <= i < |lines| ==> CleanLine(lines[i])
    requires Sent(chunks, |chunks|) == Join(lines) && |handled| == |chunks| == |decoded|
    requires forall i :: 0 <= i < |chunks| ==> Adds(Sent(chunks, i), Sent(chunks, i + 1), handled[i])
    requires forall i :: 0 <= i < |chunks| ==> Yields(Sent(chunks, i), Sent(chunks, i + 1), decoded[i])
    ensures Flat(handled) == NonEmpty(lines) && Flat(decoded) == NonEmpty(lines)
  {
    DaemonHandlesTheStream(chunks, handled, |chunks|);
    ClientDecodesTheStream(chunks, decoded, |chunks|);
    assert handled[..|chunks|] == handled && decoded[..|chunks|] == decoded;
    PiecesOfJoin(lines, []);
    assert Join(lines) + [] == Join(lines);
    CleanLinesPass(lines);
  }

  // ---------- The client's limit ----------

  /** Every message of the stream, and what is left of it, has at most `limit` bytes. */
  predicate AllWithin(s: seq<Byte>, limit: nat)
  {
    |Rest(s)| <= limit && forall i :: 0 <= i < |Pieces(s)| ==> |Pieces(s)[i]| <= limit
  }

  lemma {:induction false} WithinBefore(s: seq<Byte>, t: seq<Byte>, limit: nat)
    requires AllWithin(s + t, limit)
    ensures AllWithin(s, limit)
  {
    if t == [] {
      assert s + t == s;
    } else {
      var n := |t| - 1;
      LastByte(s, t);
      AddByte(s + t[..n], t[n]);
      var p, q := Pieces(s + t[..n]), Pieces(s + t);
      assert p <= q;
      assert forall i :: 0 <= i < |p| ==> p[i] == q[i];
      if t[n] == NEWLINE { assert q[|p|] == Rest(s + t[..n]); }
      WithinBefore(s, t[..n], limit);
    }
  }

  lemma {:induction false} SentBefore(chunks: seq<seq<Byte>>, i: nat, n: nat) returns (later: seq<Byte>)
    requires i <= n <= |chunks|
    ensures Sent(chunks, n) == Sent(chunks, i) + later
  {
    if i == n {
      later := [];
    } else {
      later := SentBefore(chunks, i, n - 1);
      Regroup(Sent(chunks, i), later, chunks[n - 1]);
      later := later + chunks[n - 1];
    }
  }

  /** The reader never gives up on messages within its limit, in any chunking. */
  lemma ClientAcceptsWithinTheLimit(chunks: seq<seq<Byte>>, i: nat)
    requires i <= |chunks| && AllWithin(Sent(chunks, |chunks|), CLIENT_LIMIT)
    ensures |Rest(Sent(chunks, i))| <= CLIENT_LIMIT
  {
    var later := SentBefore(chunks, i, |chunks|);
    WithinBefore(Sent(chunks, i), later, CLIENT_LIMIT);
  }

  lemma {:induction false} PiecesAreShorter(s: seq<Byte>)
    ensures |Rest(s)| <= |s| && forall i :: 0 <= i < |Pieces(s)| ==> |Pieces(s)[i]| < |s|
  {
    if s != [] {
      PiecesAreShorter(s[..|s| - 1]);
    }
  }

  /** It looks only after each chunk, so a message may pass the limit by less than a chunk. */
  lemma {:induction false} ClientLimitIsOffByOneChunk(chunks: seq<seq<Byte>>, n: nat, i: nat)
    requires n <= |chunks| && i < |Pieces(Sent(chunks, n))|
    requires forall j :: 0 <= j < |chunks| ==> |chunks[j]| <= CHUNK
    requires forall j :: 0 <= j <= |chunks| ==> |Rest(Sent(chunks, j))| <= CLIENT_LIMIT
    ensures |Pieces(Sent(chunks, n))[i]| < CLIENT_LIMIT + CHUNK
  {
    if n > 0 {
      var before := Sent(chunks, n - 1);
      CutGoesOn(before, chunks[n - 1]);
      PiecesAreShorter(Rest(before) + chunks[n - 1]);
      if i < |Pieces(before)| {
        ClientLimitIsOffByOneChunk(chunks, n - 1, i);
      } else {
        assert Pieces(Sent(chunks, n))[i] == Pieces(Rest(before) + chunks[n - 1])[i - |Pieces(before)|];
      }
    }
  }

  // A lone message.

  /** Chunks as they may be received for a stream: none empty, none longer than the buffer. */
  predicate Delivers(chunks: seq<seq<Byte>>, stream: seq<Byte>)
  {
    Sent(chunks, |chunks|) == stream && forall i :: 0 <= i < |chunks| ==> 0 < |chunks[i]| <= CHUNK
  }

  /** The reader does not give up on the chunks. */
  predicate Accepts(chunks: seq<seq<Byte>>)
  {
    forall i :: 0 <= i <= |chunks| ==> |Rest(Sent(chunks, i))| <= CLIENT_LIMIT
  }

  /** As few chunks as possible. */
  function Chop(s: seq<Byte>): (chunks: seq<seq<Byte>>)
    ensures forall i :: 0 <= i < |chunks| ==> 0 < |chunks[i]| <= CHUNK
  {
    if s == [] then []
    else if |s| <= CHUNK then [s]
    else Chop(s[..|s| - CHUNK]) + [s[|s| - CHUNK..]]
  }

  lemma {:induction false} SentFront(chunks: seq<seq<Byte>>, last: seq<Byte>, i: nat)
    requires i <= |chunks|
    ensures Sent(chunks + [last], i) == Sent(chunks, i)
  {
    if i > 0 { SentFront(chunks, last, i - 1); }
  }

  lemma {:induction false} ChopDelivers(s: seq<Byte>)
    ensures Delivers(Chop(s), s)
  {
    if s == [] {
    } else if |s| <= CHUNK {
      assert Sent([s], 0) == [] && Sent([s], 1) == [] + [s][0];
    } else {
      var front, last := s[..|s| - CHUNK], s[|s| - CHUNK..];
      ChopDelivers(front);
      SentFront(Chop(front), last, |Chop(front)|);
      assert s == front + last;
    }
  }

  /** Chunks that deliver `front`, and one more with the rest of the line. */
  lemma LineAfter(message: seq<Byte>, k: nat) returns (chunks: seq<seq<Byte>>)
    requires NEWLINE !in message && k <= |message| && |message| - k < CHUNK
    ensures Delivers(chunks, message + [NEWLINE])
    ensures |chunks| > 0 && Sent(chunks, |chunks| - 1) == message[..k]
  {
    var front, last := Chop(message[..k]), message[k..] + [NEWLINE];
    ChopDelivers(message[..k]);
    chunks := front + [last];
    SentFront(front, last, |front|);
    assert message[..k] + last == message + [NEWLINE];
  }

  lemma LoneLine(message: seq<Byte>)
    requires NEWLINE !in message
    ensures Pieces(message + [NEWLINE]) == [message] && Rest(message + [NEWLINE]) == []
  {
    NoNewlineNoPiece(message);
    AddByte(message, NEWLINE);
  }

  /** What has been sent before the last chunk has no newline, so all of it is left. */
  lemma RestsOfLine(message: seq<Byte>, chunks: seq<seq<Byte>>, k: nat, i: nat)
    requires NEWLINE !in message && k <= |message| && Sent(chunks, |chunks|) == message + [NEWLINE]
    requires |chunks| > 0 && Sent(chunks, |chunks| - 1) == message[..k] && i <= |chunks|
    ensures |Rest(Sent(chunks, i))| <= k
  {
    if i == |chunks| {
      LoneLine(message);
    } else {
      var later := SentBefore(chunks, i, |chunks| - 1);
      assert Sent(chunks, i) <= message[..k];
      assert Sent(chunks, i) == message[..|Sent(chunks, i)|];
      NoNewlineNoPiece(Sent(chunks, i));
    }
  }

  ghost predicate SomeDeliveryIsAccepted(stream: seq<Byte>)
  {
    exists chunks :: Delivers(chunks, stream) && Accepts(chunks)
  }

  ghost predicate EveryDeliveryIsAccepted(stream: seq<Byte>)
  {
    forall chunks :: Delivers(chunks, stream) ==> Accepts(chunks)
  }

  lemma LongLineCanPass(message: seq<Byte>)
    requires NEWLINE !in message && |message| < CLIENT_LIMIT + CHUNK
    ensures SomeDeliveryIsAccepted(message + [NEWLINE])
  {
    var k := if |message| <= CLIENT_LIMIT then |message| else CLIENT_LIMIT;
    var chunks := LineAfter(message, k);
    forall i | 0 <= i <= |chunks|
      ensures |Rest(Sent(chunks, i))| <= CLIENT_LIMIT
    {
      RestsOfLine(message, chunks, k, i);
    }
    assert Accepts(chunks);
  }

  lemma LongLineCanFail(message: seq<Byte>)
    requires NEWLINE !in message && |message| > CLIENT_LIMIT
    ensures !EveryDeliveryIsAccepted(message + [NEWLINE])
  {
    var chunks := LineAfter(message, |message|);
    assert message[..|message|] == message;
    NoNewlineNoPiece(message);
    assert |Rest(Sent(chunks, |chunks| - 1))| > CLIENT_LIMIT;
    assert !Accepts(chunks);
  }

  /** A message passes in every delivery exactly when it is within the limit, and in some
      delivery exactly when it is less than a chunk beyond it. */
  lemma LineIsAcceptedExactlyWhen(message: seq<Byte>)
    requires NEWLINE !in message
    ensures EveryDeliveryIsAccepted(message + [NEWLINE]) <==> |message| <= CLIENT_LIMIT
    ensures SomeDeliveryIsAccepted(message + [NEWLINE]) <==> |message| < CLIENT_LIMIT + CHUNK
  {
    LoneLine(message);
    if |message| > CLIENT_LIMIT {
      LongLineCanFail(message);
    } else {
      forall chunks | Delivers(chunks, message + [NEWLINE]) ensures Accepts(chunks) {
        forall i | 0 <= i <= |chunks|
          ensures |Rest(Sent(chunks, i))| <= CLIENT_LIMIT
        {
          ClientAcceptsWithinTheLimit(chunks, i);
        }
      }
    }
    if |message| < CLIENT_LIMIT + CHUNK {
      LongLineCanPass(message);
    } else {
      forall chunks | Delivers(chunks, message + [NEWLINE])
        ensures !Accepts(chunks)
      {
        LongLineIsTooLong(message, chunks);
      }
    }
  }

  lemma LongLineIsTooLong(message: seq<Byte>, chunks: seq<seq<Byte>>)
    requires NEWLINE !in message && Delivers(chunks, message + [NEWLINE])
    ensures Accepts(chunks) ==> |message| < CLIENT_LIMIT + CHUNK
  {
    LoneLine(message);
    if Accepts(chunks) { ClientLimitIsOffByOneChunk(chunks, |chunks|, 0); }
  }
}
