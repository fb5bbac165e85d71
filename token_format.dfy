/** The strings generate-tokens builds for one token from its issuance context: the token
    id, the attachment file name, the inline content id, the preview label and the
    `flatNo` field of its record. */
module TokenFormat {
  import opened Js

  /** The request fields every token of a batch shares, as the templates render them:
      the event name with its whitespace removed, and `String()` of block and flat. */
  datatype Context = Context(event: string, block: string, flat: string)

  /** One token of a batch: a day key and the token's 1-based index within that day. */
  datatype Slot = Slot(day: string, index: nat)

  /** `${event}_Day${day}_${block}-${flat}_T${i}_${Date.now()}`. */
  function TokenId(c: Context, s: Slot, stamp: nat): string
  {
    c.event + "_Day" + s.day + "_" + c.block + "-" + c.flat + "_T" + NatStr(s.index) + "_" + NatStr(stamp)
  }

  /** `Day${day}_token_${i}.png`. */
  function Filename(s: Slot): string
  {
    "Day" + s.day + "_token_" + NatStr(s.index) + ".png"
  }

  /** `qr${day}_${i}@${block}${flat}`: the content id of the inline copy of the image. */
  function Cid(c: Context, s: Slot): string
  {
    "qr" + s.day + "_" + NatStr(s.index) + "@" + c.block + c.flat
  }

  /** `Day ${day} - Token ${i}`. */
  function Label(s: Slot): string
  {
    "Day " + s.day + " - Token " + NatStr(s.index)
  }

  /** `${block}-${flat}`: the `flatNo` field of a created record. */
  function Resident(c: Context): string
  {
    c.block + "-" + c.flat
  }

  /** Everything of a token id before its `T<index>_<stamp>` tail. */
  function IdHead(c: Context, day: string): string
  {
    c.event + "_Day" + day + "_" + c.block + "-" + c.flat + "_"
  }

  /** In `x + [sep] + d` with `d` all digits, `sep` is the last character that is not a digit. */
  lemma DigitTail(x: string, sep: char, d: string)
    requires !IsDigit(sep) && AllDigits(d)
    ensures var z := x + [sep] + d; !IsDigit(z[|x|]) && forall k :: |x| < k < |z| ==> IsDigit(z[k])
  {
    var z := x + [sep] + d;
    assert forall k :: |x| < k < |z| ==> z[k] == d[k - |x| - 1];
  }

  /** A string that ends in a separator followed by digits splits there in one way only. */
  lemma SplitAtLast(x1: string, d1: string, x2: string, d2: string, sep: char)
    requires !IsDigit(sep) && AllDigits(d1) && AllDigits(d2)
    requires x1 + [sep] + d1 == x2 + [sep] + d2
    ensures x1 == x2 && d1 == d2
  {
    var z := x1 + [sep] + d1;
    DigitTail(x1, sep, d1);
    DigitTail(x2, sep, d2);
    assert |x1| == |x2|;
    assert d1 == z[|x1| + 1..] == d2;
    assert x1 == z[..|x1|] == x2;
  }

  /** The day key sits between fixed text in an id's head, so the head determines it. */
  lemma IdHeadInjective(c: Context, d1: string, d2: string)
    requires IdHead(c, d1) == IdHead(c, d2)
    ensures d1 == d2
  {
    var h1, h2 := IdHead(c, d1), IdHead(c, d2);
    var p := c.event + "_Day";
    var q := "_" + c.block + "-" + c.flat + "_";
    assert h1 == p + d1 + q && h2 == p + d2 + q;
    assert d1 == h1[|p|..|h1| - |q|];
    assert d2 == h2[|p|..|h2| - |q|];
  }

  /** Within one context the token id determines the slot and the timestamp: tokens that
      differ in day, index or millisecond never share an id. */
  lemma TokenIdInjective(c: Context, s1: Slot, t1: nat, s2: Slot, t2: nat)
    requires TokenId(c, s1, t1) == TokenId(c, s2, t2)
    ensures s1 == s2 && t1 == t2
  {
    var h1, h2 := IdHead(c, s1.day), IdHead(c, s2.day);
    assert TokenId(c, s1, t1) == (h1 + ['T'] + NatStr(s1.index)) + ['_'] + NatStr(t1);
    assert TokenId(c, s2, t2) == (h2 + ['T'] + NatStr(s2.index)) + ['_'] + NatStr(t2);
    SplitAtLast(h1 + ['T'] + NatStr(s1.index), NatStr(t1), h2 + ['T'] + NatStr(s2.index), NatStr(t2), '_');
    NatStrInjective(t1, t2);
    SplitAtLast(h1, NatStr(s1.index), h2, NatStr(s2.index), 'T');
    NatStrInjective(s1.index, s2.index);
    IdHeadInjective(c, s1.day, s2.day);
  }

  /** Within one context distinct tokens get distinct content ids, so every `cid:` image
      reference of the mail names one inline attachment. */
  lemma CidInjective(c: Context, s1: Slot, s2: Slot)
    requires Cid(c, s1) == Cid(c, s2)
    ensures s1 == s2
  {
    var tail := "@" + c.block + c.flat;
    var x1, x2 := "qr" + s1.day, "qr" + s2.day;
    assert Cid(c, s1) == (x1 + ['_'] + NatStr(s1.index)) + tail;
    assert Cid(c, s2) == (x2 + ['_'] + NatStr(s2.index)) + tail;
    var n := |Cid(c, s1)| - |tail|;
    assert x1 + ['_'] + NatStr(s1.index) == Cid(c, s1)[..n] == x2 + ['_'] + NatStr(s2.index);
    SplitAtLast(x1, NatStr(s1.index), x2, NatStr(s2.index), '_');
    NatStrInjective(s1.index, s2.index);
    assert s1.day == x1[2..] && s2.day == x2[2..];
  }
}
