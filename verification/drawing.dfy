/** Immediate-mode sprite blits, recorded as data instead of being sent to the renderer. */
module Drawing {

  /** One call of `drawTexturedModalRect`: the `w` by `h` cell of the bound texture
      atlas whose top-left corner is `(u, v)` is copied to the screen at `(x, y)`. */
  datatype Draw = Draw(x: int, y: int, u: int, v: int, w: int, h: int)

  /** A cell of the texture atlas, by its top-left corner. */
  datatype Sprite = Sprite(u: int, v: int)

  predicate Uses(d: Draw, s: Sprite) {
    d.u == s.u && d.v == s.v
  }

  /** True when the screen point `(px, py)` lies on the rectangle `d` paints. */
  predicate Covers(d: Draw, px: int, py: int) {
    d.x <= px < d.x + d.w && d.y <= py < d.y + d.h
  }

  /** How many of the blits in `ds` take their pixels from sprite `s`. */
  function CountUses(ds: seq<Draw>, s: Sprite): (n: nat)
    ensures n <= |ds|
  {
    if |ds| == 0 then 0
    else (if Uses(ds[0], s) then 1 else 0) + CountUses(ds[1..], s)
  }

  lemma {:induction false} CountUsesAppend(a: seq<Draw>, b: seq<Draw>, s: Sprite)
    ensures CountUses(a + b, s) == CountUses(a, s) + CountUses(b, s)
    decreases |a|
  {
    if |a| == 0 {
      assert a + b == b;
    } else {
      assert (a + b)[1..] == a[1..] + b;
      CountUsesAppend(a[1..], b, s);
    }
  }
}
