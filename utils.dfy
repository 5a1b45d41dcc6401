/**
 * The helpers of src/utils/utils.js: colour parsing (`hexToRgbA`), the id counter (`getUID`),
 * `random`, `lerp`, `map` and the source-rectangle computation of `drawImageProp`.
 *
 * Numbers are idealised as `real`; `Math.random()` is a parameter `draw` with 0 <= draw < 1.
 */
module Utils {
  import opened Common

  // ---------------------------------------------------------------------------------------------
  // Arithmetic steps

  lemma ProductBelow(x: real, y: real)
    requires 0.0 <= x < 1.0 && y > 0.0
    ensures 0.0 <= x * y < y
  {
    assert y - x * y == (1.0 - x) * y;
  }

  lemma ProductAbove(x: real, y: real)
    requires 0.0 <= x < 1.0 && y < 0.0
    ensures y < x * y <= 0.0
  {
    ProductBelow(x, -y);
    assert x * -y == -(x * y);
  }

  lemma ProductWithin(t: real, g: real)
    requires 0.0 <= t <= 1.0 && g >= 0.0
    ensures 0.0 <= t * g <= g
  {
    assert g - t * g == (1.0 - t) * g;
  }

  lemma Div256(q: nat, r: nat)
    requires r < 256
    ensures (q * 256 + r) / 256 == q && (q * 256 + r) % 256 == r
  {
  }

  lemma Div65536(q: nat, r: nat)
    requires r < 65536
    ensures (q * 65536 + r) / 65536 == q
  {
  }

  lemma MulDiv(x: real, d: real)
    requires d != 0.0
    ensures (d * x) / d == x
  {
  }

  lemma DivMul(x: real, d: real)
    requires d != 0.0
    ensures (x / d) * d == x && d * (x / d) == x
  {
  }

  // ---------------------------------------------------------------------------------------------
  // hexToRgbA

  /** A character of the class `[A-Fa-f0-9]`. */
  predicate IsHexDigit(c: char)
  {
    '0' <= c <= '9' || 'a' <= c <= 'f' || 'A' <= c <= 'F'
  }

  function HexValue(c: char): (v: nat)
    requires IsHexDigit(c)
    ensures v < 16
  {
    if '0' <= c <= '9' then c as int - '0' as int
    else if 'a' <= c <= 'f' then c as int - 'a' as int + 10
    else c as int - 'A' as int + 10
  }

  predicate AllHex(s: seq<char>)
  {
    forall i :: 0 <= i < |s| ==> IsHexDigit(s[i])
  }

  /** One `([A-Fa-f0-9]{3})` group. */
  predicate Group(s: seq<char>)
  {
    |s| == 3 && AllHex(s)
  }

  /** The pattern `^#([A-Fa-f0-9]{3}){1,2}$`, group by group. */
  predicate MatchesPattern(hex: string)
  {
    && |hex| >= 1 && hex[0] == '#'
    && (Group(hex[1..]) || (|hex| == 7 && Group(hex[1..4]) && Group(hex[4..])))
  }

  /** `0x` followed by the digits, read as a number: the value of the hex digits, most significant first. */
  function HexNumber(ds: seq<char>): nat
    requires AllHex(ds)
    decreases |ds|
  {
    if ds == [] then 0 else HexNumber(ds[..|ds| - 1]) * 16 + HexValue(ds[|ds| - 1])
  }

  /** The value of the hex pair `hi lo`. */
  function Pair(hi: char, lo: char): (v: nat)
    requires IsHexDigit(hi) && IsHexDigit(lo)
    ensures v < 256
  {
    HexValue(hi) * 16 + HexValue(lo)
  }

  /** `(c >> 16) & 255`, `(c >> 8) & 255` and `c & 255`; for a non-negative c below 2^31 the shift
      and the mask are a division by a power of two and a remainder. */
  function Channels(c: nat): (r: (nat, nat, nat))
    ensures r.0 < 256 && r.1 < 256 && r.2 < 256
  {
    ((c / 65536) % 256, (c / 256) % 256, c % 256)
  }

  /** The decimal form JavaScript gives a non-negative integer. */
  function Decimal(n: nat): (s: string)
    ensures |s| >= 1 && forall i :: 0 <= i < |s| ==> '0' <= s[i] <= '9'
    decreases n
  {
    if n < 10 then [('0' as int + n) as char]
    else Decimal(n / 10) + [('0' as int + n % 10) as char]
  }

  /** Reading a string of decimal digits back as a number. */
  function ParseDecimal(s: string): nat
    requires forall i :: 0 <= i < |s| ==> '0' <= s[i] <= '9'
    decreases |s|
  {
    if s == [] then 0 else ParseDecimal(s[..|s| - 1]) * 10 + (s[|s| - 1] as int - '0' as int)
  }

  lemma {:induction false} DecimalRoundTrip(n: nat)
    ensures ParseDecimal(Decimal(n)) == n
    decreases n
  {
    if n >= 10 {
      DecimalRoundTrip(n / 10);
      var s := Decimal(n);
      assert s[..|s| - 1] == Decimal(n / 10);
    }
  }

  /** `'rgba(' + [r, g, b].join(',') + ',' + opacity + ')'`. */
  function Rgba(r: nat, g: nat, b: nat, opacity: string): string
  {
    "rgba(" + Decimal(r) + "," + Decimal(g) + "," + Decimal(b) + "," + opacity + ")"
  }

  /** The digits after `#`, with a 3-digit form doubled digit by digit. */
  function Expand(ds: seq<char>): (e: seq<char>)
    requires |ds| == 3 || |ds| == 6
    ensures |e| == 6
  {
    if |ds| == 3 then [ds[0], ds[0], ds[1], ds[1], ds[2], ds[2]] else ds
  }

  /** `hexToRgbA(hex, opacity)`; `opacity` is the string JavaScript's `+` turns it into. Accepted
      exactly when the pattern matches; anything else throws `Bad Hex`. */
  function HexToRgbA(hex: string, opacity: string): (r: Result<string, string>)
    ensures r.Ok? <==> MatchesPattern(hex)
    ensures r.Err? ==> r.error == "Bad Hex"
  {
    if |hex| >= 1 && hex[0] == '#' && (|hex| == 4 || |hex| == 7) && AllHex(hex[1..]) then
      var ds := Expand(hex[1..]);
      assert AllHex(ds);
      var c := Channels(HexNumber(ds));
      Ok(Rgba(c.0, c.1, c.2, opacity))
    else
      assert !MatchesPattern(hex) by {
        if |hex| == 7 && Group(hex[1..4]) && Group(hex[4..]) {
          forall i | 1 <= i < 7
            ensures IsHexDigit(hex[i])
          {
            if i < 4 {
              assert hex[1..4][i - 1] == hex[i];
            } else {
              assert hex[4..][i - 4] == hex[i];
            }
          }
          assert AllHex(hex[1..]);
        }
      }
      Err("Bad Hex")
  }

  /** The three channels are the values of the three hex pairs. */
  lemma SixDigitChannels(ds: seq<char>)
    requires |ds| == 6 && AllHex(ds)
    ensures Channels(HexNumber(ds)) == (Pair(ds[0], ds[1]), Pair(ds[2], ds[3]), Pair(ds[4], ds[5]))
  {
    var p0, p1, p2 := Pair(ds[0], ds[1]), Pair(ds[2], ds[3]), Pair(ds[4], ds[5]);
    assert HexNumber(ds[..1]) == HexValue(ds[0]) by {
      assert ds[..1][..0] == [];
    }
    assert HexNumber(ds[..2]) == p0 by {
      assert ds[..2][..1] == ds[..1];
    }
    assert HexNumber(ds[..3]) == p0 * 16 + HexValue(ds[2]) by {
      assert ds[..3][..2] == ds[..2];
    }
    assert HexNumber(ds[..4]) == p0 * 256 + p1 by {
      assert ds[..4][..3] == ds[..3];
    }
    assert HexNumber(ds[..5]) == (p0 * 256 + p1) * 16 + HexValue(ds[4]) by {
      assert ds[..5][..4] == ds[..4];
    }
    var v := HexNumber(ds);
    assert v == (p0 * 256 + p1) * 256 + p2 by {
      assert ds[..5] == ds[..|ds| - 1];
    }
    ChannelsOfPairs(p0, p1, p2);
  }

  /** Three bytes packed most significant first unpack to themselves. */
  lemma ChannelsOfPairs(p0: nat, p1: nat, p2: nat)
    requires p0 < 256 && p1 < 256 && p2 < 256
    ensures Channels((p0 * 256 + p1) * 256 + p2) == (p0, p1, p2)
  {
    var v := (p0 * 256 + p1) * 256 + p2;
    Div256(p0 * 256 + p1, p2);
    Div256(p0, p1);
    assert v == p0 * 65536 + (p1 * 256 + p2);
    Div65536(p0, p1 * 256 + p2);
  }

  /** A well-formed colour gives `rgba(r,g,b,opacity)` with r, g and b the values of the hex pairs. */
  lemma HexToRgbAChannels(hex: string, opacity: string)
    requires MatchesPattern(hex)
    ensures var ds := Expand(hex[1..]);
            AllHex(ds) &&
            HexToRgbA(hex, opacity) ==
              Ok(Rgba(Pair(ds[0], ds[1]), Pair(ds[2], ds[3]), Pair(ds[4], ds[5]), opacity))
  {
    var ds := Expand(hex[1..]);
    assert AllHex(hex[1..]) by {
      if !Group(hex[1..]) {
        forall i | 0 <= i < 6
          ensures IsHexDigit(hex[1..][i])
        {
          if i < 3 {
            assert hex[1..4][i] == hex[1..][i];
          } else {
            assert hex[4..][i - 3] == hex[1..][i];
          }
        }
      }
    }
    assert AllHex(ds);
    SixDigitChannels(ds);
  }

  /** `#RGB` means the same colour as `#RRGGBB`. */
  lemma ShortFormDoubles(hex: string, opacity: string)
    requires |hex| == 4 && MatchesPattern(hex)
    ensures HexToRgbA(hex, opacity) == HexToRgbA(['#', hex[1], hex[1], hex[2], hex[2], hex[3], hex[3]], opacity)
  {
    var long := ['#', hex[1], hex[1], hex[2], hex[2], hex[3], hex[3]];
    assert AllHex(hex[1..]) by {
      assert Group(hex[1..]);
    }
    assert forall i :: 1 <= i < 4 ==> IsHexDigit(hex[i]) by {
      forall i | 1 <= i < 4
        ensures IsHexDigit(hex[i])
      {
        assert hex[1..][i - 1] == hex[i];
      }
    }
    assert AllHex(long[1..]);
    assert long[1..] == Expand(hex[1..]);
  }

  /** A lower-case hex digit. */
  function HexDigit(n: nat): (c: char)
    requires n < 16
    ensures IsHexDigit(c) && HexValue(c) == n
  {
    if n < 10 then ('0' as int + n) as char else ('a' as int + n - 10) as char
  }

  /** The `#rrggbb` form of three channel values. */
  function FormatHex(r: nat, g: nat, b: nat): (s: string)
    requires r < 256 && g < 256 && b < 256
    ensures |s| == 7
  {
    ['#', HexDigit(r / 16), HexDigit(r % 16), HexDigit(g / 16), HexDigit(g % 16), HexDigit(b / 16), HexDigit(b % 16)]
  }

  /** Formatting three channels as `#rrggbb` and parsing them back gives those channels. */
  lemma HexRoundTrip(r: nat, g: nat, b: nat, opacity: string)
    requires r < 256 && g < 256 && b < 256
    ensures HexToRgbA(FormatHex(r, g, b), opacity) == Ok(Rgba(r, g, b, opacity))
  {
    var hex := FormatHex(r, g, b);
    assert AllHex(hex[1..]);
    assert MatchesPattern(hex) by {
      assert Group(hex[1..4]) && Group(hex[4..]) by {
        assert hex[1..4] == hex[1..][..3] && hex[4..] == hex[1..][3..];
      }
    }
    HexToRgbAChannels(hex, opacity);
    var ds := Expand(hex[1..]);
    assert ds == hex[1..];
    PairOfDigits(r);
    PairOfDigits(g);
    PairOfDigits(b);
    assert Pair(ds[0], ds[1]) == r && Pair(ds[2], ds[3]) == g && Pair(ds[4], ds[5]) == b;
  }

  /** The two hex digits of a byte read back as that byte. */
  lemma PairOfDigits(n: nat)
    requires n < 256
    ensures Pair(HexDigit(n / 16), HexDigit(n % 16)) == n
  {
  }

  // ---------------------------------------------------------------------------------------------
  // getUID

  /** The module-level `uid` counter behind `getUID`. */
  class UidCounter {
    var uid: nat

    constructor ()
      ensures uid == 0
    {
      uid := 0;
    }

    /** `getUID`: increment, then return the new value. */
    method GetUid() returns (id: nat)
      modifies this
      ensures id == old(uid) + 1 && uid == id
    {
      uid := uid + 1;
      id := uid;
    }
  }

  /** Fresh ids from a new counter: the first is 1, and each one is one more than the one before. */
  method FirstUids(n: nat) returns (ids: seq<nat>)
    ensures |ids| == n && forall i :: 0 <= i < n ==> ids[i] == i + 1
  {
    var counter := new UidCounter();
    ids := [];
    while |ids| < n
      invariant |ids| <= n && counter.uid == |ids|
      invariant forall i :: 0 <= i < |ids| ==> ids[i] == i + 1
      decreases n - |ids|
    {
      var id := counter.GetUid();
      ids := ids + [id];
    }
  }

  // ---------------------------------------------------------------------------------------------
  // random

  /** `~~(draw * length)`: the index `random` picks from an array. */
  function PickIndex(length: nat, draw: real): (i: int)
    requires 0.0 <= draw < 1.0
    ensures length > 0 ==> 0 <= i < length
    ensures length == 0 ==> i == 0
  {
    var x := draw * length as real;
    if length > 0 then
      ProductBelow(draw, length as real);
      assert 0.0 <= x < length as real;
      assert x.Floor as real <= x;
      x.Floor
    else
    (draw * length as real).Floor
  }

  /** `random(array)`: an element of the array, or `undefined` for an empty one. */
  function RandomElement<T>(arr: seq<T>, draw: real): (r: Option<T>)
    requires 0.0 <= draw < 1.0
    ensures r.Some? <==> |arr| > 0
    ensures r.Some? ==> r.value in arr && r.value == arr[PickIndex(|arr|, draw)]
  {
    var i := PickIndex(|arr|, draw);
    if 0 <= i < |arr| then Some(arr[i]) else None
  }

  /** The range `random(min, max)` draws from: with `max` not a number it is [0, min || 1), where
      `min || 1` is 1 for a missing or zero `min`. */
  function RandomBounds(min: Option<real>, max: Option<real>): (b: (real, real))
    ensures max.Some? && min.Some? ==> b == (min.value, max.value)
    ensures max.None? ==> b.0 == 0.0 && b.1 != 0.0
  {
    match max
    case Some(hi) => (if min.Some? then min.value else 0.0, hi)
    case None => (0.0, if min.None? || min.value == 0.0 then 1.0 else min.value)
  }

  /** `random(min, max)` for numbers: `min + Math.random() * (max - min)`. A missing `min` with a
      numeric `max` is JavaScript's `undefined + …`, which is not a number: `None`. */
  function Random(min: Option<real>, max: Option<real>, draw: real): (r: Option<real>)
    requires 0.0 <= draw < 1.0
    ensures r.None? <==> min.None? && max.Some?
  {
    if min.None? && max.Some? then None
    else
      var bounds := RandomBounds(min, max);
      Some(Lerp(bounds.0, bounds.1, draw))
  }

  /** A number drawn by `random` lies in [lo, hi) when lo < hi, and in (hi, lo] when hi < lo. */
  lemma RandomInRange(min: Option<real>, max: Option<real>, draw: real)
    requires 0.0 <= draw < 1.0 && !(min.None? && max.Some?)
    ensures var bounds := RandomBounds(min, max);
            var r := Random(min, max, draw).value;
            && (bounds.0 < bounds.1 ==> bounds.0 <= r < bounds.1)
            && (bounds.1 < bounds.0 ==> bounds.1 < r <= bounds.0)
  {
    var bounds := RandomBounds(min, max);
    LerpHalfOpen(bounds.0, bounds.1, draw);
  }

  /** For t in [0, 1), `lerp` never reaches its second end. */
  lemma LerpHalfOpen(a: real, b: real, t: real)
    requires 0.0 <= t < 1.0
    ensures a < b ==> a <= Lerp(a, b, t) < b
    ensures b < a ==> b < Lerp(a, b, t) <= a
  {
    var g := b - a;
    var s := t * g;
    assert Lerp(a, b, t) == a + s;
    if g > 0.0 {
      ProductBelow(t, g);
    } else if g < 0.0 {
      ProductAbove(t, g);
    }
  }

  // ---------------------------------------------------------------------------------------------
  // lerp and map

  /** `lerp(min, max, amount)`. */
  function Lerp(a: real, b: real, t: real): real
  {
    a + t * (b - a)
  }

  /** `lerp` gives its first end at 0 and its second at 1. */
  lemma LerpEnds(a: real, b: real)
    ensures Lerp(a, b, 0.0) == a && Lerp(a, b, 1.0) == b
  {
  }

  /** After a `lerp` step of weight t the remaining gap to the target is (1 - t) times the old one. */
  lemma LerpGap(a: real, b: real, t: real)
    ensures b - Lerp(a, b, t) == (1.0 - t) * (b - a)
  {
  }

  lemma LerpCommuted(a: real, b: real, t: real)
    ensures Lerp(a, b, t) == a + (b - a) * t
  {
  }

  /** For t in [0, 1], `lerp` stays between its ends. */
  lemma LerpBetween(a: real, b: real, t: real)
    requires 0.0 <= t <= 1.0
    ensures a <= b ==> a <= Lerp(a, b, t) <= b
    ensures b <= a ==> b <= Lerp(a, b, t) <= a
  {
    var g := b - a;
    var s := t * g;
    assert Lerp(a, b, t) == a + s;
    if g >= 0.0 {
      ProductWithin(t, g);
    } else {
      ProductWithin(t, -g);
      assert t * -g == -s;
    }
  }

  /** `map(value, start1, stop1, start2, stop2)`; dividing by `stop1 - start1 == 0` gives no finite
      number (`None`). */
  function Remap(value: real, start1: real, stop1: real, start2: real, stop2: real): (r: Option<real>)
    ensures r.Some? <==> start1 != stop1
  {
    if start1 == stop1 then None
    else Some(start2 + (stop2 - start2) * ((value - start1) / (stop1 - start1)))
  }

  /** `map` is `lerp` of the target range at the value's relative position in the source range. */
  lemma RemapIsLerp(value: real, start1: real, stop1: real, start2: real, stop2: real)
    requires start1 != stop1
    ensures Remap(value, start1, stop1, start2, stop2) ==
              Some(Lerp(start2, stop2, (value - start1) / (stop1 - start1)))
  {
    var t := (value - start1) / (stop1 - start1);
    var r := Remap(value, start1, stop1, start2, stop2);
    assert r.Some?;
    assert r.value == start2 + (stop2 - start2) * t;
    LerpCommuted(start2, stop2, t);
    assert r.value == Lerp(start2, stop2, t);
  }

  /** `map` sends `start1` to `start2` and `stop1` to `stop2`. */
  lemma RemapEnds(start1: real, stop1: real, start2: real, stop2: real)
    requires start1 != stop1
    ensures Remap(start1, start1, stop1, start2, stop2) == Some(start2)
    ensures Remap(stop1, start1, stop1, start2, stop2) == Some(stop2)
  {
    var d := stop1 - start1;
    var atStart := Remap(start1, start1, stop1, start2, stop2);
    var atStop := Remap(stop1, start1, stop1, start2, stop2);
    assert atStart.value == start2 + (stop2 - start2) * ((start1 - start1) / d);
    assert atStop.value == start2 + (stop2 - start2) * ((stop1 - start1) / d);
    assert (start1 - start1) / d == 0.0;
    assert (stop1 - start1) / d == 1.0 by {
      DivMul(stop1 - start1, d);
    }
  }

  /** Mapping back with the two ranges swapped undoes `map`. */
  lemma RemapInverse(value: real, start1: real, stop1: real, start2: real, stop2: real)
    requires start1 != stop1 && start2 != stop2
    ensures Remap(Remap(value, start1, stop1, start2, stop2).value, start2, stop2, start1, stop1) == Some(value)
  {
    var d1, d2 := stop1 - start1, stop2 - start2;
    var t := (value - start1) / d1;
    var m := start2 + d2 * t;
    var there := Remap(value, start1, stop1, start2, stop2);
    assert there.value == m;
    var back := Remap(m, start2, stop2, start1, stop1);
    assert back.value == start1 + (stop1 - start1) * ((m - start2) / (stop2 - start2));
    assert (m - start2) / d2 == t by {
      assert m - start2 == d2 * t;
      MulDiv(t, d2);
    }
    assert start1 + d1 * t == value by {
      DivMul(value - start1, d1);
    }
    assert back.Some? && back.value == value;
  }

  // ---------------------------------------------------------------------------------------------
  // drawImageProp

  function Abs(x: real): real
  {
    if x < 0.0 then -x else x
  }

  /** `Math.min`. */
  function Min(a: real, b: real): (m: real)
    ensures m <= a && m <= b && (m == a || m == b)
  {
    if a <= b then a else b
  }

  /** An offset argument: the number given, or 0.5 when it is not a number, kept within [0, 1]. */
  function Offset(o: Option<real>): (r: real)
    ensures 0.0 <= r <= 1.0
    ensures o.None? ==> r == 0.5
    ensures o.Some? && 0.0 <= o.value <= 1.0 ==> r == o.value
  {
    var v := if o.Some? then o.value else 0.5;
    if v < 0.0 then 0.0 else if v > 1.0 then 1.0 else v
  }

  /** The size of the source rectangle that covers a w by h destination with an iw by ih image
      without distortion: the whole width of the image when the destination is relatively wider,
      else its whole height. */
  function CoverSize(w: real, h: real, iw: real, ih: real): (real, real)
    requires w > 0.0 && h > 0.0 && iw > 0.0 && ih > 0.0
  {
    if w * ih >= h * iw then (iw, iw * h / w) else (ih * w / h, ih)
  }

  /** The cover rectangle placed at the relative offsets ox and oy. */
  function Cover(w: real, h: real, iw: real, ih: real, ox: real, oy: real): (r: (real, real, real, real))
    requires w > 0.0 && h > 0.0 && iw > 0.0 && ih > 0.0
  {
    var size := CoverSize(w, h, iw, ih);
    ((iw - size.0) * ox, (ih - size.1) * oy, size.0, size.1)
  }

  /** The cover size fits in the image, is not empty and has the destination's shape. */
  lemma CoverSizeFits(w: real, h: real, iw: real, ih: real)
    requires w > 0.0 && h > 0.0 && iw > 0.0 && ih > 0.0
    ensures var size := CoverSize(w, h, iw, ih);
            && 0.0 < size.0 <= iw && 0.0 < size.1 <= ih
            && size.0 * h == size.1 * w
  {
    var size := CoverSize(w, h, iw, ih);
    var cw, ch := size.0, size.1;
    if w * ih >= h * iw {
      DivMul(iw * h, w);
      assert ch * w == iw * h;
      assert ch <= ih by {
        assert ch * w <= ih * w;
      }
    } else {
      DivMul(ih * w, h);
      assert cw * h == ih * w;
      assert cw <= iw by {
        assert cw * h <= iw * h;
      }
    }
  }

  /** Placed at offsets in [0, 1], the cover rectangle lies inside the image. */
  lemma CoverInsideImage(w: real, h: real, iw: real, ih: real, ox: real, oy: real)
    requires w > 0.0 && h > 0.0 && iw > 0.0 && ih > 0.0
    requires 0.0 <= ox <= 1.0 && 0.0 <= oy <= 1.0
    ensures var c := Cover(w, h, iw, ih, ox, oy);
            0.0 <= c.0 && c.0 + c.2 <= iw && 0.0 <= c.1 && c.1 + c.3 <= ih
  {
    var size := CoverSize(w, h, iw, ih);
    CoverSizeFits(w, h, iw, ih);
    ProductWithin(ox, iw - size.0);
    ProductWithin(oy, ih - size.1);
  }

  /** One offset argument of `drawImageProp`: 0.5 when it is not a number, then raised to 0 and
      lowered to 1. */
  method ClampOffset(o: Option<real>) returns (v: real)
    ensures v == Offset(o)
  {
    v := if o.Some? then o.value else 0.5;
    if v < 0.0 { v := 0.0; }
    if v > 1.0 { v := 1.0; }
  }

  /** `drawImageProp`: the offsets (0.5 when not numbers) kept within [0, 1], the image scaled so
      that it covers the w by h destination, and the source rectangle of `drawImage` clamped into the
      iw by ih image. The source rectangle is the cover rectangle, so the clamps never change it. */
  method DrawImageProp(w: real, h: real, iw: real, ih: real, offsetX: Option<real>, offsetY: Option<real>)
    returns (cx: real, cy: real, cw: real, ch: real)
    requires w > 0.0 && h > 0.0 && iw > 0.0 && ih > 0.0
    ensures (cx, cy, cw, ch) == Cover(w, h, iw, ih, Offset(offsetX), Offset(offsetY))
    ensures 0.0 <= cx && cx + cw <= iw && 0.0 <= cy && cy + ch <= ih
  {
    var ox := ClampOffset(offsetX);
    var oy := ClampOffset(offsetY);

    cw, ch := ScaleToCover(w, h, iw, ih);
    cx := (iw - cw) * ox;
    cy := (ih - ch) * oy;

    ghost var cover := Cover(w, h, iw, ih, ox, oy);
    assert cover.2 == cw && cover.3 == ch;
    assert cover.0 == cx && cover.1 == cy;
    CoverInsideImage(w, h, iw, ih, ox, oy);
    if cx < 0.0 { cx := 0.0; }
    if cy < 0.0 { cy := 0.0; }
    if cw > iw { cw := iw; }
    if ch > ih { ch := ih; }
  }

  /** The scaling steps of `drawImageProp`: the image scaled by the smaller of the two ratios,
      the gap left on the other side filled by a second factor `ar`, and the source size that the
      scaled image maps onto the destination. */
  method ScaleToCover(w: real, h: real, iw: real, ih: real) returns (cw: real, ch: real)
    requires w > 0.0 && h > 0.0 && iw > 0.0 && ih > 0.0
    ensures (cw, ch) == CoverSize(w, h, iw, ih)
  {
    var r := Min(w / iw, h / ih);
    var nw := iw * r;
    var nh := ih * r;
    var ar := 1.0;
    ghost var nw0, nh0 := nw, nh;
    MinRatio(w, h, iw, ih, r);
    if nw < w { ar := w / nw; }
    ghost var ar1 := ar;
    if Abs(ar - 1.0) < 0.00000000000001 && nh < h { ar := h / nh; }
    nw := nw * ar;
    nh := nh * ar;

    cw := iw / (nw / w);
    ch := ih / (nh / h);
    SourceSize(w, h, iw, ih, r, nw0, nh0, ar1, ar, nw, nh, cw, ch);
  }

  lemma DivByQuotient(a: real, b: real, c: real)
    requires b != 0.0 && c != 0.0
    ensures a / (b / c) == a * c / b
  {
  }

  /** Which side `drawImageProp` scales to: the minimum ratio belongs to the relatively narrower side. */
  lemma MinRatio(w: real, h: real, iw: real, ih: real, r: real)
    requires w > 0.0 && h > 0.0 && iw > 0.0 && ih > 0.0 && r == Min(w / iw, h / ih)
    ensures w * ih > h * iw ==> r == h / ih && iw * r < w && ih * r == h
    ensures w * ih <= h * iw ==> r == w / iw && iw * r == w && (ih * r < h <==> w * ih < h * iw)
    ensures w * ih == h * iw ==> ih * r == h
  {
    var rw, rh := w / iw, h / ih;
    DivMul(w, iw);
    DivMul(h, ih);
    assert rw * (iw * ih) == w * ih;
    assert rh * (iw * ih) == h * iw;
    if w * ih > h * iw {
      assert rh < rw;
      assert iw * rh < iw * rw;
    } else {
      assert rw <= rh;
      assert ih * rw * iw == w * ih;
      if w * ih < h * iw {
        assert ih * rw < ih * rh;
      }
    }
  }

  /** The destination is relatively wider: the whole width of the image is used. */
  lemma WideSource(w: real, h: real, iw: real, ih: real, nw0: real, nh0: real, ar: real, nw: real, nh: real)
    requires w > 0.0 && h > 0.0 && iw > 0.0 && ih > 0.0 && nw0 > 0.0
    requires nh0 == h && ar == w / nw0 && ih * nw0 == iw * h
    requires nw == nw0 * ar && nh == nh0 * ar
    ensures iw / (nw / w) == iw
    ensures ih / (nh / h) == iw * h / w
  {
    DivMul(w, nw0);
    assert nw == w;
    assert nw / w == 1.0;
    assert nh / h == ar by {
      MulDiv(ar, h);
    }
    DivByQuotient(ih, w, nw0);
  }

  /** The destination is relatively taller: the whole height of the image is used. */
  lemma TallSource(w: real, h: real, iw: real, ih: real, nw0: real, nh0: real, ar: real, nw: real, nh: real)
    requires w > 0.0 && h > 0.0 && iw > 0.0 && ih > 0.0 && nh0 > 0.0
    requires nw0 == w && ar == h / nh0 && iw * nh0 == ih * w
    requires nw == nw0 * ar && nh == nh0 * ar
    ensures iw / (nw / w) == ih * w / h
    ensures ih / (nh / h) == ih
  {
    DivMul(h, nh0);
    assert nh == h;
    assert nh / h == 1.0;
    assert nw / w == ar by {
      MulDiv(ar, w);
    }
    DivByQuotient(iw, h, nh0);
  }

  /** The source size `drawImageProp` computes, step by step, is the cover size. */
  lemma SourceSize(w: real, h: real, iw: real, ih: real, r: real, nw0: real, nh0: real, ar1: real, ar: real,
                   nw: real, nh: real, cw: real, ch: real)
    requires w > 0.0 && h > 0.0 && iw > 0.0 && ih > 0.0 && r == Min(w / iw, h / ih)
    requires nw0 == iw * r && nh0 == ih * r
    requires ar1 == if nw0 < w then w / nw0 else 1.0
    requires ar == if Abs(ar1 - 1.0) < 0.00000000000001 && nh0 < h then h / nh0 else ar1
    requires nw == nw0 * ar && nh == nh0 * ar
    requires cw == iw / (nw / w) && ch == ih / (nh / h)
    ensures cw == CoverSize(w, h, iw, ih).0 && ch == CoverSize(w, h, iw, ih).1
  {
    MinRatio(w, h, iw, ih, r);
    if w * ih > h * iw {
      assert ih * nw0 == iw * h by {
        DivMul(h, ih);
        assert nw0 == iw * (h / ih);
      }
      WideSource(w, h, iw, ih, nw0, nh0, ar, nw, nh);
    } else if w * ih < h * iw {
      assert iw * nh0 == ih * w by {
        DivMul(w, iw);
        assert nh0 == ih * (w / iw);
      }
      TallSource(w, h, iw, ih, nw0, nh0, ar, nw, nh);
    } else {
      assert ar == 1.0;
      assert nw == w && nh == h;
      assert cw == iw && ch == ih by {
        DivMul(w, w);
        DivMul(h, h);
      }
      SameShape(w, h, iw, ih);
    }
  }

  /** When image and destination have the same shape, the image's full height is its cover height. */
  lemma SameShape(w: real, h: real, iw: real, ih: real)
    requires w > 0.0 && h > 0.0 && iw > 0.0 && ih > 0.0 && w * ih == h * iw
    ensures iw * h / w == ih
  {
    var p := iw * h;
    assert p == w * ih;
    MulDiv(ih, w);
    assert p / w == ih;
  }
}
