/** Models of the two formatting helpers of Util that the bank codecs call:
    numberFormatGeral (fixed-width zero padding) and maskString (display masks). */
module Util {
  import opened Php

  datatype Option<T> = None | Some(value: T)

  /** A run of `n` zero characters. */
  function Zeros(n: nat): (r: string)
    ensures |r| == n
    ensures forall i :: 0 <= i < n ==> r[i] == '0'
  {
    seq(n, _ => '0')
  }

  /** numberFormatGeral($s, $w): left-pads `s` with '0' to exactly `w` characters;
      an over-long value keeps its first `w` characters. */
  function Pad(s: string, w: nat): (r: string)
    ensures |r| == w
    ensures |s| <= w ==> r[w - |s|..] == s
    ensures |s| <= w ==> forall i :: 0 <= i < w - |s| ==> r[i] == '0'
    ensures |s| > w ==> r == s[..w]
  {
    if |s| > w then s[..w] else Zeros(w - |s|) + s
  }

  /** Padding one place wider adds exactly one leading zero to a value that fits. */
  lemma PadWider(s: string, w: nat)
    requires |s| <= w
    ensures Pad(s, w + 1) == "0" + Pad(s, w)
  {
    assert Zeros(w + 1 - |s|) == "0" + Zeros(w - |s|);
  }

  /** Number of '#' placeholders in a display mask. */
  function Placeholders(mask: string): (n: nat)
    ensures n <= |mask|
  {
    if mask == [] then 0 else (if mask[0] == '#' then 1 else 0) + Placeholders(mask[1..])
  }

  /** Placeholders of a concatenation add up. */
  lemma {:induction false} PlaceholdersAppend(a: string, b: string)
    ensures Placeholders(a + b) == Placeholders(a) + Placeholders(b)
  {
    if a != [] {
      assert (a + b)[0] == a[0] && (a + b)[1..] == a[1..] + b;
      PlaceholdersAppend(a[1..], b);
    } else {
      assert a + b == b;
    }
  }

  /** A run of `k` placeholders counts `k`. */
  lemma {:induction false} PlaceholdersOfRun(k: nat)
    ensures Placeholders(seq(k, _ => '#')) == k
  {
    if k > 0 {
      assert seq(k, _ => '#')[1..] == seq(k - 1, _ => '#');
      PlaceholdersOfRun(k - 1);
    }
  }

  /** The characters of `shown` that sit under the '#' placeholders of `mask`, in order. */
  function Unmask(shown: string, mask: string): (v: string)
    requires |shown| == |mask|
    ensures |v| == Placeholders(mask)
  {
    if mask == [] then ""
    else if mask[0] == '#' then [shown[0]] + Unmask(shown[1..], mask[1..])
    else Unmask(shown[1..], mask[1..])
  }

  /** `prefix` in front of a formatted value; a format error stays an error. */
  function Prepend(prefix: string, o: Option<string>): (r: Option<string>)
    ensures r.Some? <==> o.Some?
    ensures r.Some? ==> r.value == prefix + o.value
  {
    if o.None? then None else Some(prefix + o.value)
  }

  /** maskString($value, $mask): fills the '#' placeholders left to right with the
      characters of `value` and keeps every other mask character in place; a value
      whose length is not the placeholder count is a format error. */
  function Mask(value: string, mask: string): (r: Option<string>)
    ensures r.Some? <==> |value| == Placeholders(mask)
    ensures r.Some? ==> |r.value| == |mask|
    ensures r.Some? ==> forall i :: 0 <= i < |mask| && mask[i] != '#' ==> r.value[i] == mask[i]
    ensures r.Some? ==> Unmask(r.value, mask) == value
  {
    if mask == [] then
      (if value == [] then Some("") else None)
    else if mask[0] == '#' then
      (if value == [] then None else Prepend([value[0]], Mask(value[1..], mask[1..])))
    else
      Prepend([mask[0]], Mask(value, mask[1..]))
  }

  lemma PrependTwice(a: string, b: string, o: Option<string>)
    ensures Prepend(a, Prepend(b, o)) == Prepend(a + b, o)
  {
    if o.Some? {
      assert a + (b + o.value) == (a + b) + o.value;
    }
  }

  /** A run of `k` placeholders copies the first `k` characters of the value. */
  lemma {:induction false} MaskRun(value: string, k: nat, rest: string)
    requires k <= |value|
    ensures Mask(value, seq(k, _ => '#') + rest) == Prepend(value[..k], Mask(value[k..], rest))
  {
    var m := seq(k, _ => '#') + rest;
    var o := Mask(value[k..], rest);
    if k > 0 {
      assert m[0] == '#' && m[1..] == seq(k - 1, _ => '#') + rest;
      MaskRun(value[1..], k - 1, rest);
      assert value[1..][k - 1..] == value[k..];
      PrependTwice([value[0]], value[1..][..k - 1], o);
      assert [value[0]] + value[1..][..k - 1] == value[..k];
    } else {
      assert m == rest && value[k..] == value && value[..k] == "";
      assert o.Some? ==> "" + o.value == o.value;
    }
  }

  /** A literal mask character is copied in front of the rest. */
  lemma MaskLiteral(value: string, c: char, rest: string)
    requires c != '#'
    ensures Mask(value, [c] + rest) == Prepend([c], Mask(value, rest))
  {
    assert ([c] + rest)[0] == c && ([c] + rest)[1..] == rest;
  }

  /** A single placeholder takes a single character. */
  lemma MaskOne(value: string)
    requires |value| == 1
    ensures Mask(value, "#") == Some(value)
  {
    assert "#"[1..] == "" && value[1..] == "" && [value[0]] + "" == value;
  }

  /** Ten placeholders, a dash and one placeholder show 11 characters with a dash
      before the last. */
  lemma RunDashOne(nn: string)
    requires |nn| == 11
    ensures Mask(nn, seq(10, _ => '#') + (['-'] + "#")) == Some(nn[..10] + "-" + nn[10..])
  {
    MaskRun(nn, 10, ['-'] + "#");
    MaskLiteral(nn[10..], '-', "#");
    MaskOne(nn[10..]);
    assert nn[..10] + ("-" + nn[10..]) == nn[..10] + "-" + nn[10..];
  }
}
