/** Copying a cord into a buffer through the batched iteration callback. */
module CordFill {
  import opened Cords

  /** The callback stops once `len` characters are in, but only looks after storing one. */
  function Room(len: nat): nat {
    if len == 0 then 1 else len
  }

  /** The buffer `b` is `b0` with `t` appended behind the first `n0` characters as far as it fits,
      and `n` characters are in now; a nul may follow them, and nothing else has changed. */
  predicate Appended(b0: seq<char>, n0: nat, b: seq<char>, n: nat, room: nat, t: string) {
    && n0 < room <= |b0| == |b|
    && n == (if n0 + |t| >= room then room else n0 + |t|)
    && b[..n] == b0[..n0] + t[..n - n0]
    && (if n == room then b[n..] == b0[n..] else b[n + 1..] == b0[n + 1..])
  }

  lemma AppendTwice(b0: seq<char>, n0: nat, b1: seq<char>, n1: nat, b2: seq<char>, n2: nat, room: nat, s: string, t: string)
    requires Appended(b0, n0, b1, n1, room, s) && n1 < room && Appended(b1, n1, b2, n2, room, t) && t != ""
    ensures Appended(b0, n0, b2, n2, room, s + t)
  {
    assert s[..n1 - n0] == s;
    assert (s + t)[..n2 - n0] == s + t[..n2 - n1];
    if n2 < room {
      assert b1[n2 + 1..] == b1[n1 + 1..][n2 - n1..];
      assert b0[n2 + 1..] == b0[n1 + 1..][n2 - n1..];
    } else {
      assert b1[n2..] == b1[n1 + 1..][n2 - n1 - 1..];
      assert b0[n2..] == b0[n1 + 1..][n2 - n1 - 1..];
    }
  }

  lemma AppendFull(b0: seq<char>, n0: nat, b1: seq<char>, n1: nat, room: nat, s: string, t: string)
    requires Appended(b0, n0, b1, n1, room, s) && n1 == room
    ensures Appended(b0, n0, b1, n1, room, s + t)
  {
    assert (s + t)[..n1 - n0] == s[..n1 - n0];
  }

  lemma TailStored(b0: seq<char>, b1: seq<char>, b2: seq<char>, n: nat)
    requires n < |b0| == |b1| == |b2| && b1[n..] == b0[n..] && b2 == b1[n := b2[n]]
    ensures b2[..n + 1] == b1[..n] + [b2[n]] && b2[n + 1..] == b0[n + 1..]
  {
    assert b1[n + 1..] == b1[n..][1..] && b0[n + 1..] == b0[n..][1..];
  }

  /** CORD_fill_data: what the callback is given. */
  class FillData {
    const len: nat
    const buf: array<char>
    var count: nat

    constructor (len: nat, buf: array<char>)
      ensures this.len == len && this.buf == buf && count == 0
    {
      this.len, this.buf, this.count := len, buf, 0;
    }

    ghost predicate Open()
      reads this
    {
      count < Room(len) <= buf.Length
    }

    /** CORD_batched_fill_proc on the C string `s`. */
    method BatchedFill(s: string) returns (full: bool)
      requires Open() && NoNul(s)
      modifies this, buf
      ensures Appended(old(buf[..]), old(count), buf[..], count, Room(len), s)
      ensures full <==> count == Room(len)
      ensures !full ==> buf[count] == '\0'
    {
      ghost var b0, n0 := buf[..], count;
      var n, t := count, 0;
      while true
        invariant t <= |s| && n == n0 + t < Room(len) && count == n0
        invariant buf[..n] == b0[..n0] + s[..t]
        invariant buf[n..] == b0[n..]
        decreases |s| - t
      {
        ghost var b1 := buf[..];
        buf[n] := if t < |s| then s[t] else '\0';
        assert buf[..] == b1[n := buf[n]];
        TailStored(b0, b1, buf[..], n);
        if buf[n] == '\0' {
          break;
        }
        assert s[..t + 1] == s[..t] + [s[t]];
        t := t + 1;
        n := n + 1;
        if n >= len {
          count := n;
          assert n0 + |s| >= n == Room(len);
          return true;
        }
      }
      assert s[..t] == s;
      count := n;
      return false;
    }

    /** CORD_iter5 from position `i` with the callback above. */
    method Iterate(x: Cord, i: nat) returns (full: bool)
      requires Open() && Valid(x) && (x.Empty? || i < |Text(x)|)
      modifies this, buf
      ensures !x.Empty? ==> Appended(old(buf[..]), old(count), buf[..], count, Room(len), Text(x)[i..])
      ensures !x.Empty? ==> (full <==> count == Room(len)) && (!full ==> buf[count] == '\0')
      ensures x.Empty? ==> !full && buf[..] == old(buf[..]) && count == old(count)
      decreases x
    {
      if x.Empty? {
        return false;
      }
      if x.Leaf? {
        full := BatchedFill(x.s[i..]);
        return;
      }
      LeftLenIsExact(x);
      ghost var b0, n0 := buf[..], count;
      var a, b := Text(x.left), Text(x.right);
      if i > 0 {
        var leftLen := LeftLen(x);
        if i >= leftLen {
          assert Text(x)[i..] == b[i - leftLen..];
          full := Iterate(x.right, i - leftLen);
          return;
        }
      }
      assert Text(x)[i..] == a[i..] + b;
      full := Iterate(x.left, i);
      ghost var b1, n1 := buf[..], count;
      if full {
        AppendFull(b0, n0, b1, n1, Room(len), a[i..], b);
        return;
      }
      assert b[0..] == b;
      full := Iterate(x.right, 0);
      AppendTwice(b0, n0, b1, n1, buf[..], count, Room(len), a[i..], b);
    }
  }

  /** CORD_fill_buf. */
  method FillBuf(x: Cord, i: nat, len: nat, buf: array<char>) returns (full: bool)
    requires Valid(x) && (x.Empty? || i < |Text(x)|) && 0 < buf.Length && len <= buf.Length
    modifies buf
    ensures x.Empty? ==> !full && buf[..] == old(buf[..])
    ensures !x.Empty? ==> (full <==> len <= |Text(x)| - i)
    ensures full && len > 0 ==> buf[..] == Text(x)[i..i + len] + old(buf[len..])
    ensures full && len == 0 ==> buf[..] == [Text(x)[i]] + old(buf[1..])
    ensures !full && !x.Empty? ==> var n := |Text(x)| - i; buf[..] == Text(x)[i..] + ['\0'] + old(buf[n + 1..])
  {
    hide Text, Valid, Appended;
    var fd := new FillData(len, buf);
    ghost var b0 := buf[..];
    full := fd.Iterate(x, i);
    if !x.Empty? {
      FromStart(b0, buf[..], fd.count, Room(len), Text(x)[i..]);
      if full {
        assert Text(x)[i..][..Room(len)] == Text(x)[i..i + Room(len)];
      }
    }
  }

  /** What appending to the front of a buffer leaves in it. */
  lemma FromStart(b0: seq<char>, b: seq<char>, n: nat, room: nat, t: string)
    requires Appended(b0, 0, b, n, room, t)
    ensures n == room <==> room <= |t|
    ensures n == room ==> b == t[..room] + b0[room..]
    ensures n < room ==> n == |t| && b == t + [b[n]] + b0[n + 1..]
  {
    assert b0[..0] + t[..n] == t[..n];
    if n == room {
      assert b == b[..n] + b[n..];
    } else {
      assert t[..n] == t;
      assert b == b[..n] + [b[n]] + b[n + 1..];
    }
  }

  /** The abort is "CORD_fill_buf malfunction". */
  datatype Converted = Converted(chars: array<char>) | Abort

  /** CORD_to_char_star: the text and a nul, in a new array; it never aborts. */
  method ToCharStar(x: Cord) returns (r: Converted)
    requires Valid(x)
    ensures r.Converted? && fresh(r.chars) && r.chars[..] == Text(x) + ['\0']
  {
    LengthIsExact(x);
    var len := Length(x);
    var result := new char[len + 1];
    if len > 0 {
      var full := FillBuf(x, 0, len, result);
      if !full {
        return Abort;
      }
      assert result[..len] == Text(x);
    }
    result[len] := '\0';
    assert result[..] == result[..len] + ['\0'];
    r := Converted(result);
  }
}
