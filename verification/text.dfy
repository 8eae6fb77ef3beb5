/** String helpers shared by the tool and search modules: Python's
    `sep.join(items)` and the substring test `needle in haystack`. */
module Text {

  /** `sep.join(items)`: the items in order with `sep` between neighbours. */
  function Join(items: seq<string>, sep: string): (r: string)
    ensures items == [] ==> r == ""
    ensures |items| == 1 ==> r == items[0]
    ensures |items| > 0 ==> items[0] <= r
  {
    if |items| == 0 then ""
    else if |items| == 1 then items[0]
    else items[0] + sep + Join(items[1..], sep)
  }

  /** Total length of a list of strings. */
  function TotalLength(items: seq<string>): nat
  {
    if items == [] then 0 else |items[0]| + TotalLength(items[1..])
  }

  /** Joining one more item adds the separator and the item at the end;
      this is what a loop that appends to a list before joining relies on. */
  lemma {:induction false} JoinSnoc(items: seq<string>, x: string, sep: string)
    requires items != []
    ensures Join(items + [x], sep) == Join(items, sep) + sep + x
  {
    if |items| == 1 {
      assert items + [x] == [items[0], x];
      assert (items + [x])[1..] == [x];
    } else {
      assert (items + [x])[1..] == items[1..] + [x];
      JoinSnoc(items[1..], x, sep);
    }
  }

  /** The joined text is every item's characters plus one separator per gap. */
  lemma {:induction false} JoinLength(items: seq<string>, sep: string)
    requires items != []
    ensures |Join(items, sep)| == TotalLength(items) + (|items| - 1) * |sep|
  {
    if |items| > 1 {
      JoinLength(items[1..], sep);
    }
  }

  /** Python's `needle in haystack` for strings: the empty needle is in
      every string, and a needle longer than the haystack is in none. */
  predicate Contains(haystack: string, needle: string): (r: bool)
    ensures needle == [] ==> r
    ensures r ==> |needle| <= |haystack|
    decreases |haystack|
  {
    needle <= haystack || (|haystack| > 0 && Contains(haystack[1..], needle))
  }

  /** `needle` occurs in `haystack` starting at offset `i`. */
  predicate OccursAt(haystack: string, needle: string, i: int)
  {
    0 <= i <= |haystack| - |needle| && haystack[i..i + |needle|] == needle
  }

  /** A needle that is in the haystack occurs at some offset. */
  lemma {:induction false} ContainsGivesOffset(haystack: string, needle: string)
    requires Contains(haystack, needle)
    ensures exists i :: OccursAt(haystack, needle, i)
    decreases |haystack|
  {
    if needle <= haystack {
      assert OccursAt(haystack, needle, 0);
    } else {
      ContainsGivesOffset(haystack[1..], needle);
      var i :| OccursAt(haystack[1..], needle, i);
      assert haystack[i + 1..i + 1 + |needle|] == haystack[1..][i..i + |needle|];
      assert OccursAt(haystack, needle, i + 1);
    }
  }

  /** A needle occurring at an offset is in the haystack. */
  lemma {:induction false} OffsetGivesContains(haystack: string, needle: string, i: int)
    requires OccursAt(haystack, needle, i)
    ensures Contains(haystack, needle)
    decreases i
  {
    if i == 0 {
      assert needle <= haystack;
    } else {
      assert haystack[1..][i - 1..i - 1 + |needle|] == haystack[i..i + |needle|];
      OffsetGivesContains(haystack[1..], needle, i - 1);
    }
  }

  /** `Contains` holds exactly when the needle occurs at some offset. */
  lemma ContainsAt(haystack: string, needle: string)
    ensures Contains(haystack, needle) <==> exists i :: OccursAt(haystack, needle, i)
  {
    if Contains(haystack, needle) {
      ContainsGivesOffset(haystack, needle);
    }
    if exists i :: OccursAt(haystack, needle, i) {
      var i :| OccursAt(haystack, needle, i);
      OffsetGivesContains(haystack, needle, i);
    }
  }

  /** Concatenation regroups freely. */
  lemma Associative(a: string, b: string, c: string)
    ensures a + b + c == a + (b + c)
  {
  }

  /** A text placed after a fixed lead and followed by a fixed opening,
      middle and close: the lead, the text and the opening form a prefix,
      and the close ends the result. */
  lemma Bracketed(lead: string, x: string, opening: string, middle: string, close: string)
    ensures var r := lead + x + (opening + (middle + close));
      && lead + x + opening <= r
      && r[|r| - |close|..] == close
      && |r| == |lead| + |x| + |opening| + |middle| + |close|
  {
    var r := lead + x + (opening + (middle + close));
    assert r == (lead + x + opening) + (middle + close);
    assert r == (lead + x + opening + middle) + close;
  }

  /** `r` is made of the fixed pieces with `x` and `y` in their slots: the
      lead, `x` and the clause form a prefix of `r`, `y` sits verbatim
      right after the middle piece, and the close ends `r`. */
  predicate Slotted(r: string, lead: string, x: string, clause: string, middle: string, y: string, close: string)
  {
    var at := |lead| + |x| + |clause| + |middle|;
    && lead + x + clause <= r
    && |r| == at + |y| + |close|
    && r[at..at + |y|] == y
    && r[|r| - |close|..] == close
  }

  /** Two texts placed among fixed pieces are in their slots. */
  lemma TwoSlots(lead: string, x: string, clause: string, middle: string, y: string, close: string)
    ensures Slotted(lead + x + (clause + (middle + y + close)), lead, x, clause, middle, y, close)
  {
    var r := lead + x + (clause + (middle + y + close));
    assert r == (lead + x + clause) + (middle + y + close);
    assert r == (lead + x + clause + middle) + y + close;
  }

  /** A text placed between a fixed head and a fixed tail can be cut back
      out of the result. */
  lemma Framed(head: string, x: string, tail: string)
    ensures var r := head + x + tail;
      && head <= r
      && r[|head|..|r| - |tail|] == x
      && r[|r| - |tail|..] == tail
  {
  }

  /** A needle placed between two texts is contained in the result. */
  lemma ContainsMiddle(head: string, needle: string, tail: string)
    ensures Contains(head + needle + tail, needle)
  {
    var r := head + needle + tail;
    assert r[|head|..|head| + |needle|] == needle;
    assert OccursAt(r, needle, |head|);
    ContainsAt(r, needle);
  }

  /** The shape of a message that puts `x` after a fixed lead and a
      separator, followed by a body that carries `needle`. */
  lemma {:induction false} Embedded(lead: string, x: string, sep: string, body: string, needle: string, end: string)
    ensures var r := lead + x + (sep + (body + needle + end));
      && lead + x + sep <= r
      && Contains(r, needle)
      && |r| == |lead| + |x| + |sep| + |body| + |needle| + |end|
  {
    var r := lead + x + (sep + (body + needle + end));
    assert r == (lead + x + sep + body) + needle + end;
    ContainsMiddle(lead + x + sep + body, needle, end);
  }
}
