/** Bounded string append over a character buffer, and the event names built with it. */
module Strings {

  const NUL: char := '\0'

  /** A C string: the terminator is implicit. */
  type CString = s: seq<char> | NUL !in s

  function Min(a: int, b: int): int { if a < b then a else b }

  /** memccpy(buf + dst, src, NUL, n): copies up to `n` characters, through the terminator. */
  method Memccpy(buf: array<char>, dst: nat, src: CString, n: nat) returns (found: bool, p: nat)
    requires dst + n <= buf.Length
    modifies buf
    ensures found <==> |src| < n
    ensures found ==> p == dst + |src| + 1 && buf[dst + |src|] == NUL
    ensures buf[..dst] == old(buf[..dst])
    ensures buf[dst..dst + Min(|src|, n)] == src[..Min(|src|, n)]
    ensures buf[dst + n..] == old(buf[dst + n..])
  {
    var i := 0;
    found, p := false, dst;
    while i < n && i < |src|
      invariant i <= n && i <= |src|
      invariant buf[dst..dst + i] == src[..i]
      invariant buf[..dst] == old(buf[..dst]) && buf[dst + n..] == old(buf[dst + n..])
    {
      buf[dst + i] := src[i];
      i := i + 1;
    }
    if i < n {
      buf[dst + i] := NUL;
      found, p := true, dst + i + 1;
    }
  }

  /** `string_append(dst, end, src)`: pointers are positions in `buf`. */
  method StringAppend(buf: array<char>, dst: nat, end: nat, src: CString) returns (r: nat)
    requires dst <= end <= buf.Length
    modifies buf
    ensures dst <= r <= end
    ensures dst == end ==> r == end && buf[..] == old(buf[..])
    ensures dst < end && |src| < end - dst ==> r == dst + |src|
    ensures dst < end && |src| >= end - dst ==> r == end
    ensures dst < end ==> buf[Min(r, end - 1)] == NUL && buf[dst..Min(r, end - 1)] == src[..Min(r, end - 1) - dst]
    ensures buf[..dst] == old(buf[..dst]) && buf[end..] == old(buf[end..])
  {
    if dst == end {
      return end;
    }
    var found, p := Memccpy(buf, dst, src, end - dst);
    if found {
      return p - 1;
    }
    buf[end - 1] := NUL;
    r := end;
  }

  ghost function Concat(list: seq<CString>): (r: CString) {
    if list == [] then [] else Concat(list[..|list| - 1]) + list[|list| - 1]
  }

  /** What the buffer holds up to its first terminator. */
  ghost predicate Holds(buf: seq<char>, text: CString) {
    |text| < |buf| && buf[..|text|] == text && buf[|text|] == NUL
  }

  ghost function Truncated(s: CString, n: nat): (r: CString) {
    s[..Min(|s|, n)]
  }

  /** Where a chain of appends of `text` stands: its length, or `end` once it was cut. */
  ghost function Position(text: CString, end: nat): nat {
    if |text| < end then |text| else end
  }

  /** One link of a chain of appends. */
  method AppendLink(buf: array<char>, ptr: nat, end: nat, src: CString, ghost text: CString) returns (r: nat)
    requires 1 <= end <= buf.Length && ptr == Position(text, end)
    requires Holds(buf[..end], Truncated(text, end - 1))
    modifies buf
    ensures r == Position(text + src, end)
    ensures Holds(buf[..end], Truncated(text + src, end - 1))
    ensures buf[end..] == old(buf[end..])
  {
    ghost var was := buf[..end];
    r := StringAppend(buf, ptr, end, src);
    ghost var now := buf[..end];
    if ptr < end {
      ghost var stop := Min(ptr + |src|, end - 1);
      assert now[..ptr] == buf[..ptr] && was[..ptr] == old(buf[..ptr]);
      assert now[ptr..stop] == buf[ptr..stop];
    } else {
      assert now == buf[..][..end] && was == old(buf[..])[..end];
    }
    AppendStep(was, now, text, src);
  }

  /**
   Appending a whole list to an empty string in a buffer of `end` characters leaves the
   concatenation, cut to `end - 1` characters, and returns `end` exactly when it was cut.
   */
  method AppendAll(buf: array<char>, end: nat, list: seq<CString>) returns (ptr: nat)
    requires 1 <= end <= buf.Length && buf[0] == NUL
    modifies buf
    ensures Holds(buf[..end], Truncated(Concat(list), end - 1))
    ensures ptr == Position(Concat(list), end)
    ensures buf[end..] == old(buf[end..])
  {
    ptr := 0;
    for i := 0 to |list|
      invariant ptr == Position(Concat(list[..i]), end)
      invariant Holds(buf[..end], Truncated(Concat(list[..i]), end - 1))
      invariant buf[end..] == old(buf[end..])
    {
      assert list[..i + 1][..i] == list[..i];
      ptr := AppendLink(buf, ptr, end, list[i], Concat(list[..i]));
    }
    assert list[..|list|] == list;
  }

  /** Once a chain has been cut, later appends change nothing. */
  lemma CutStaysCut(text: CString, src: CString, end: nat)
    requires 1 <= end && Position(text, end) == end
    ensures Position(text + src, end) == end && Truncated(text + src, end - 1) == Truncated(text, end - 1)
  {
    assert (text + src)[..end - 1] == text[..end - 1];
  }

  /** The effect of one append on what a buffer holds. */
  lemma AppendStep(was: seq<char>, now: seq<char>, text: CString, src: CString)
    requires |was| == |now| >= 1 && Holds(was, Truncated(text, |was| - 1))
    requires
      var dst := if |text| < |was| then |text| else |was|;
      var stop := Min(dst + |src|, |was| - 1);
      if dst == |was| then now == was
      else now[..dst] == was[..dst] && now[dst..stop] == src[..stop - dst] && now[stop] == NUL
    ensures Holds(now, Truncated(text + src, |now| - 1))
  {
    if |text| < |was| {
      var stop := Min(|text| + |src|, |was| - 1);
      assert now[..stop] == now[..|text|] + now[|text|..stop];
      assert (text + src)[..stop] == text + src[..stop - |text|];
    } else {
      assert (text + src)[..|was| - 1] == text[..|was| - 1];
    }
  }

  // ---- event names (src/event_loop.c) ----

  const NAMES: seq<CString> := ["POLLNVAL", "POLLERR", "POLLHUP", "POLLRDHUP", "POLLPRI", "POLLIN", "POLLOUT"]

  /** The names joined with commas. */
  function Joined(names: seq<CString>): (r: CString) {
    if names == [] then []
    else if |names| == 1 then names[0]
    else Joined(names[..|names| - 1]) + "," + names[|names| - 1]
  }

  /** The names of the events that are present, in the order the code tests them. */
  function Present(flags: seq<bool>, n: nat): (r: seq<CString>)
    requires n <= |flags| == |NAMES|
  {
    if n == 0 then []
    else Present(flags, n - 1) + (if flags[n - 1] then [NAMES[n - 1]] else [])
  }

  method AppendEvent(buf: array<char>, ptr: nat, event: CString, ghost names: seq<CString>) returns (r: nat)
    requires 1 <= buf.Length && ptr == Position(Joined(names), buf.Length)
    requires Holds(buf[..], Truncated(Joined(names), buf.Length - 1))
    requires (ptr == 0 <==> names == [])
    modifies buf
    ensures r == Position(Joined(names + [event]), buf.Length)
    ensures Holds(buf[..], Truncated(Joined(names + [event]), buf.Length - 1))
  {
    ghost var text := Joined(names);
    JoinedSnoc(names, event);
    assert buf[..buf.Length] == buf[..];
    r := ptr;
    if r > 0 {
      r := AppendLink(buf, r, buf.Length, ",", text);
      text := text + ",";
    }
    r := AppendLink(buf, r, buf.Length, event, text);
    assert buf[..buf.Length] == buf[..];
  }

  lemma JoinedSnoc(names: seq<CString>, name: CString)
    ensures Joined(names + [name]) == if names == [] then name else Joined(names) + "," + name
  {
    assert (names + [name])[..|names|] == names;
  }

  lemma {:induction false} JoinedLength(flags: seq<bool>, n: nat)
    requires n <= |flags| == |NAMES|
    ensures |Joined(Present(flags, n))| <= 10 * n
    ensures Present(flags, n) != [] ==> Joined(Present(flags, n)) != []
  {
    if n > 0 {
      JoinedLength(flags, n - 1);
      var before := Present(flags, n - 1);
      assert |NAMES[n - 1]| <= 9 && |NAMES[n - 1]| > 0;
      if flags[n - 1] {
        JoinedSnoc(before, NAMES[n - 1]);
      } else {
        assert Present(flags, n) == before;
      }
    }
  }

  /** One of the tests of `events_to_string`. */
  method TestEvent(buf: array<char>, ptr: nat, flags: seq<bool>, i: nat) returns (r: nat)
    requires i < |flags| == |NAMES| && buf.Length == 128
    requires ptr == |Joined(Present(flags, i))| && Holds(buf[..], Joined(Present(flags, i)))
    modifies buf
    ensures r == |Joined(Present(flags, i + 1))| && Holds(buf[..], Joined(Present(flags, i + 1)))
  {
    JoinedLength(flags, i);
    JoinedLength(flags, i + 1);
    r := ptr;
    if flags[i] {
      r := AppendEvent(buf, ptr, NAMES[i], Present(flags, i));
    } else {
      assert Present(flags, i + 1) == Present(flags, i);
    }
  }

  /** The description of an event mask always fits its 128 characters: nothing is cut. */
  method EventsToString(flags: seq<bool>) returns (buf: array<char>)
    requires |flags| == |NAMES|
    ensures fresh(buf) && buf.Length == 128
    ensures Holds(buf[..], Joined(Present(flags, |flags|)))
  {
    buf := new char[128](_ => NUL);
    var ptr := 0;
    assert Present(flags, 0) == [] && Holds(buf[..], Joined([]));
    assert |NAMES| == 7;
    hide Present, Joined, Holds, NAMES;
    ptr := TestEvent(buf, ptr, flags, 0);
    ptr := TestEvent(buf, ptr, flags, 1);
    ptr := TestEvent(buf, ptr, flags, 2);
    ptr := TestEvent(buf, ptr, flags, 3);
    ptr := TestEvent(buf, ptr, flags, 4);
    ptr := TestEvent(buf, ptr, flags, 5);
    ptr := TestEvent(buf, ptr, flags, 6);
  }
}
