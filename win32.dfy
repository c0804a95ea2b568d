/**
  The pieces of the Win32 and C vocabulary that the GrainEye window code
  relies on, stated over unbounded integers and exact reals: points and
  rectangles in pixel coordinates, PtInRect, C's truncating integer
  division, the truncating double-to-int cast, LOWORD/HIWORD and RGB.
*/
module Win32 {

  datatype Point = Point(x: int, y: int)

  /** A RECT. As everywhere in GDI, left/top are inside and right/bottom are not. */
  datatype Rect = Rect(left: int, top: int, right: int, bottom: int)

  /** PtInRect: half-open containment. */
  predicate PtInRect(r: Rect, p: Point) {
    r.left <= p.x < r.right && r.top <= p.y < r.bottom
  }

  /** Two rectangles that share no pixel. */
  predicate Disjoint(a: Rect, b: Rect) {
    a.right <= b.left || b.right <= a.left || a.bottom <= b.top || b.bottom <= a.top
  }

  /** No point is inside two rectangles that share no pixel. */
  lemma NoPointInDisjointRects(a: Rect, b: Rect, p: Point)
    requires Disjoint(a, b)
    ensures !(PtInRect(a, p) && PtInRect(b, p))
  {
  }

  /**
    C's `/` on `int` for a positive divisor: the quotient is truncated toward
    zero, so the remainder takes the sign of the dividend.
  */
  function CDiv(a: int, b: int): (q: int)
    requires b > 0
    ensures 0 <= a ==> 0 <= q && q * b <= a < q * b + b
    ensures a < 0 ==> q <= 0 && q * b - b < a <= q * b
  {
    if a >= 0 then a / b else -((-a) / b)
  }

  /**
    The conversion `(int)d` of a floating value, on exact reals: the
    fraction is dropped, rounding toward zero.
  */
  function Trunc(r: real): (t: int)
    ensures 0.0 <= r ==> 0 <= t && t as real <= r < t as real + 1.0
    ensures r < 0.0 ==> t <= 0 && t as real - 1.0 < r <= t as real
  {
    if r >= 0.0 then r.Floor else -((-r).Floor)
  }

  /** Truncation preserves order. */
  lemma TruncMonotone(r: real, r': real)
    requires r <= r'
    ensures Trunc(r) <= Trunc(r')
  {
    if 0.0 <= r {
      assert r.Floor <= r'.Floor;
    } else if r' < 0.0 {
      assert (-r').Floor <= (-r).Floor;
    }
  }

  /** Truncation leaves a whole number unchanged. */
  lemma TruncOfInt(n: int)
    ensures Trunc(n as real) == n
  {
    if n < 0 {
      assert (-(n as real)).Floor == -n;
    }
  }

  const WORD: int := 0x1_0000

  /** LOWORD: the low 16 bits of an LPARAM (two's complement). */
  function LoWord(l: int): (w: int)
    ensures 0 <= w < WORD
  {
    l % WORD
  }

  /** HIWORD: bits 16 to 31 of an LPARAM (two's complement). */
  function HiWord(l: int): (w: int)
    ensures 0 <= w < WORD
  {
    (l / WORD) % WORD
  }

  /** MAKELPARAM, the packing that mouse messages use for client coordinates. */
  function MakeLParam(lo: int, hi: int): int {
    hi * WORD + lo
  }

  /** LOWORD and HIWORD recover the two words that MAKELPARAM packed. */
  lemma LParamRoundTrip(lo: int, hi: int)
    requires 0 <= lo < WORD && 0 <= hi < WORD
    ensures LoWord(MakeLParam(lo, hi)) == lo && HiWord(MakeLParam(lo, hi)) == hi
  {
    var l := MakeLParam(lo, hi);
    assert l / WORD == hi && l % WORD == lo by {
      assert l == hi * WORD + lo;
    }
  }

  /** A COLORREF: red in the low byte, then green, then blue. */
  function RGB(r: int, g: int, b: int): (c: int)
    requires 0 <= r < 256 && 0 <= g < 256 && 0 <= b < 256
    ensures 0 <= c < 0x100_0000
  {
    r + g * 256 + b * 0x1_0000
  }

  function GetRValue(c: int): int { c % 256 }
  function GetGValue(c: int): int { (c / 256) % 256 }
  function GetBValue(c: int): int { (c / 0x1_0000) % 256 }

  /** The three channels of an RGB colour can be read back from it. */
  lemma RGBRoundTrip(r: int, g: int, b: int)
    requires 0 <= r < 256 && 0 <= g < 256 && 0 <= b < 256
    ensures GetRValue(RGB(r, g, b)) == r
    ensures GetGValue(RGB(r, g, b)) == g
    ensures GetBValue(RGB(r, g, b)) == b
  {
    var c := RGB(r, g, b);
    assert c / 256 == g + b * 256 && c % 256 == r;
    assert c / 0x1_0000 == b;
  }

  // Message identifiers from winuser.h.
  const WM_MOUSEMOVE: int := 0x0200
  const WM_LBUTTONDOWN: int := 0x0201
  const WM_LBUTTONUP: int := 0x0202
}
