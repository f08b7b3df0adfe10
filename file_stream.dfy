/** The source cursor: a read-only byte buffer and a position into it.
    Reading at or past the end yields the EOF sentinel and does not move. */
module FileStream {
  import opened CType

  /** A `char*` the cursor hands out: NULL, an address inside the buffer, or
      the address of the static EOF byte that `mfile_cur` returns past the end. */
  datatype Loc = Null | At(i: nat) | Sentinel

  /** The character `*mfile_cur(m)` reads when the cursor stands at `pos`. */
  function CharAt(data: seq<byte>, pos: nat): int {
    if pos < |data| then SignedChar(data[pos]) else EOF
  }

  /** The pointer `mfile_cur(m)` returns when the cursor stands at `pos`. */
  function LocAt(data: seq<byte>, pos: nat): Loc {
    if pos < |data| then At(pos) else Sentinel
  }

  /** Bytes left in front of the cursor. */
  function Remaining(data: seq<byte>, pos: nat): nat {
    if pos < |data| then |data| - pos else 0
  }

  /** Where `mfile_skip` leaves a cursor that stood at `pos`: the first
      position whose character fails `f`. */
  function SkipWhile(data: seq<byte>, pos: nat, f: int -> bool): nat
    requires !f(EOF)
    decreases Remaining(data, pos)
  {
    if f(CharAt(data, pos)) then SkipWhile(data, pos + 1, f) else pos
  }

  /** Skipping stops on the first character that fails the predicate, every
      character it passes satisfies it, and it never runs past the end. */
  lemma {:induction false} SkipWhileStops(data: seq<byte>, pos: nat, f: int -> bool)
    requires !f(EOF)
    ensures pos <= SkipWhile(data, pos, f)
    ensures !f(CharAt(data, SkipWhile(data, pos, f)))
    ensures forall k :: pos <= k < SkipWhile(data, pos, f) ==> f(CharAt(data, k))
    ensures SkipWhile(data, pos, f) == pos || SkipWhile(data, pos, f) <= |data|
    decreases Remaining(data, pos)
  {
    if f(CharAt(data, pos)) {
      SkipWhileStops(data, pos + 1, f);
    }
  }

  /** A skip that starts where the predicate already fails does not move. */
  lemma SkipWhileIdempotent(data: seq<byte>, pos: nat, f: int -> bool)
    requires !f(EOF)
    ensures SkipWhile(data, SkipWhile(data, pos, f), f) == SkipWhile(data, pos, f)
  {
    SkipWhileStops(data, pos, f);
  }

  /** The characters `n` successive `mfile_get` calls return from `pos`. */
  function Gets(data: seq<byte>, pos: nat, n: nat): seq<int>
    decreases n
  {
    if n == 0 || pos >= |data| then [] else [SignedChar(data[pos])] + Gets(data, pos + 1, n - 1)
  }

  /** Successive gets reproduce the buffer's bytes, up to its end. */
  lemma {:induction false} GetsReproduceBuffer(data: seq<byte>, pos: nat, n: nat)
    requires pos <= |data|
    ensures |Gets(data, pos, n)| == if pos + n <= |data| then n else |data| - pos
    ensures forall k :: 0 <= k < |Gets(data, pos, n)| ==> Gets(data, pos, n)[k] == SignedChar(data[pos + k])
    decreases n
  {
    if n > 0 && pos < |data| {
      GetsReproduceBuffer(data, pos + 1, n - 1);
    }
  }

  /** An open memory-mapped source: `size` is `|data|`. */
  class Mfile {
    const data: seq<byte>
    var pos: nat

    /** A cursor over an in-memory buffer, standing at `pos`. */
    constructor (data: seq<byte>, pos: nat)
      ensures this.data == data && this.pos == pos
    {
      this.data := data;
      this.pos := pos;
    }

    /** `mfile_inc_pos`: post-increment of the position. */
    method IncPos() returns (was: nat)
      modifies this`pos
      ensures was == old(pos) && pos == old(pos) + 1
    {
      was := pos;
      pos := pos + 1;
    }

    /** `mfile_decr_pos`: post-decrement of the position (the unsigned
        position must not wrap below zero). */
    method DecrPos() returns (was: nat)
      requires pos > 0
      modifies this`pos
      ensures was == old(pos) && pos == old(pos) - 1
    {
      was := pos;
      pos := pos - 1;
    }

    /** `mfile_eof` */
    predicate Eof()
      reads this
    {
      pos >= |data|
    }

    /** `mfile_cur`: the buffer address of the cursor, or the EOF sentinel. */
    function Cur(): (p: Loc)
      reads this
      ensures p == Sentinel <==> Eof()
      ensures p != Sentinel ==> p == At(pos)
    {
      LocAt(data, pos)
    }

    /** `mfile_curchar`: the character under the cursor. It is EOF past the
        end, and also on a 0xFF byte inside the buffer. */
    function CurChar(): (c: int)
      reads this
      ensures c == EOF <==> Eof() || data[pos] == 0xFF
      ensures !Eof() ==> c == SignedChar(data[pos])
    {
      CharAt(data, pos)
    }

    /** `mfile_get`: the character under the cursor, then advance; at or past
        the end, EOF and no move. */
    method Get() returns (c: int)
      modifies this`pos
      ensures old(pos) < |data| ==> c == SignedChar(data[old(pos)]) && pos == old(pos) + 1
      ensures old(pos) >= |data| ==> c == EOF && pos == old(pos)
    {
      if pos >= |data| {
        return EOF;
      }
      var at := IncPos();
      c := SignedChar(data[at]);
    }

    /** `mfile_skip`: advance while `f` holds of the current character. Every
        predicate the scanner passes is false of EOF, which bounds the loop. */
    method Skip(f: int -> bool)
      requires !f(EOF)
      modifies this`pos
      ensures pos == SkipWhile(data, old(pos), f)
    {
      while f(CurChar())
        invariant SkipWhile(data, pos, f) == SkipWhile(data, old(pos), f)
        decreases Remaining(data, pos)
      {
        var _ := IncPos();
      }
    }
  }

  /** The loop of test_file_stream.c: get until EOF or `n` characters. */
  method ReadUpTo(m: Mfile, n: nat) returns (s: seq<int>)
    requires m.pos <= |m.data|
    modifies m`pos
    ensures s == Gets(m.data, old(m.pos), n)
    ensures m.pos == old(m.pos) + |s|
  {
    s := [];
    while !m.Eof() && |s| < n
      invariant old(m.pos) <= m.pos <= |m.data|
      invariant m.pos == old(m.pos) + |s| && |s| <= n
      invariant s + Gets(m.data, m.pos, n - |s|) == Gets(m.data, old(m.pos), n)
      decreases n - |s|
    {
      var c := m.Get();
      s := s + [c];
    }
  }
}
