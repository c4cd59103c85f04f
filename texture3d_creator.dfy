/**
 * The Texture3D Creator window: a size field and a button that fills a
 * size x size x size colour buffer with a gradient, red along x, green
 * along y and blue along z, written in x-fastest order.
 */
module Texture3DCreator {
  import opened Options
  import opened Gui

  /** A colour as `new Color(r, g, b)` makes it: alpha is 1. */
  datatype Color = Color(r: Ratio, g: Ratio, b: Ratio, a: real)

  /** The slot of voxel (x, y, z) in the buffer. */
  function Index(x: int, y: int, z: int, size: int): int
  {
    x + y * size + z * (size * size)
  }

  /** The colour of voxel (x, y, z): each coordinate over size - 1 (0 / 0 when the size is 1). */
  function Voxel(x: int, y: int, z: int, size: int): (c: Color)
    requires size >= 1 && 0 <= x < size && 0 <= y < size && 0 <= z < size
    ensures c.a == 1.0
    ensures size >= 2 ==> c.r == Value(x as real / (size - 1) as real) &&
                          c.g == Value(y as real / (size - 1) as real) &&
                          c.b == Value(z as real / (size - 1) as real)
    ensures size == 1 ==> c == Color(NotANumber, NotANumber, NotANumber, 1.0)
  {
    var sizeArray := (size - 1) as real;
    Color(Quotient(x as real, sizeArray), Quotient(y as real, sizeArray), Quotient(z as real, sizeArray), 1.0)
  }

  /** The colour the buffer holds at slot i, found by splitting i back into its voxel. */
  function GradientAt(i: int, size: int): Color
    requires size >= 1 && 0 <= i
  {
    SlotSplits(i, size);
    var z := i / (size * size);
    var rest := i % (size * size);
    if z < size then Voxel(rest % size, rest / size, z, size) else Color(NotANumber, NotANumber, NotANumber, 1.0)
  }

  /** Multiplying by a non-negative number keeps an order. */
  lemma MulMonotone(a: int, b: int, d: int)
    requires a <= b && 0 <= d
    ensures a * d <= b * d
  {
    var k := b - a;
    assert b * d == a * d + k * d;
  }

  /** Euclidean division has one quotient and one remainder. */
  lemma DivModUnique(n: int, d: int, q: int, r: int)
    requires d > 0 && 0 <= r < d && n == q * d + r
    ensures n / d == q && n % d == r
  {
    var q0, r0 := n / d, n % d;
    assert n == q0 * d + r0;
    if q > q0 {
      assert (q0 + 1) * d == q0 * d + d;
      MulMonotone(q0 + 1, q, d);
    } else if q < q0 {
      assert (q + 1) * d == q * d + d;
      MulMonotone(q + 1, q0, d);
    }
  }

  /** Any slot splits into a layer and a voxel of that layer's size x size square. */
  lemma SlotSplits(i: int, size: int)
    requires size >= 1 && 0 <= i
    ensures size * size >= 1 && i / (size * size) >= 0
    ensures var rest := i % (size * size);
            0 <= rest < size * size && 0 <= rest % size < size && 0 <= rest / size < size
  {
    var s2 := size * size;
    MulMonotone(1, size, size);
    var rest := i % s2;
    var q := rest / size;
    assert rest == q * size + rest % size;
    if q >= size {
      MulMonotone(size, q, size);
    }
  }

  /** A digit below n followed by one below m gives a two-digit number below m * n. */
  lemma DigitsBound(x: int, y: int, n: int, m: int)
    requires 0 <= x < n && 0 <= y < m
    ensures 0 <= x + y * n < m * n
  {
    MulMonotone(0, y, n);
    MulMonotone(y, m - 1, n);
    assert (m - 1) * n == m * n - n;
  }

  /** Voxel (x, y, z) lies in the buffer, and its slot splits back into (x, y, z). */
  lemma DecodeIndex(x: int, y: int, z: int, size: int)
    requires size >= 1 && 0 <= x < size && 0 <= y < size && 0 <= z < size
    ensures 0 <= Index(x, y, z, size) < size * size * size
    ensures var i := Index(x, y, z, size);
            i / (size * size) == z && (i % (size * size)) % size == x && (i % (size * size)) / size == y
  {
    var s2 := size * size;
    var rest := x + y * size;
    DigitsBound(x, y, size, size);
    DigitsBound(rest, z, s2, size);
    assert size * s2 == size * size * size;
    var i := Index(x, y, z, size);
    assert i == z * s2 + rest;
    DivModUnique(i, s2, z, rest);
    DivModUnique(rest, size, y, x);
  }

  /** The colour the loops write for voxel (x, y, z) is the one its slot decodes to. */
  lemma SlotHoldsVoxel(x: int, y: int, z: int, size: int)
    requires size >= 1 && 0 <= x < size && 0 <= y < size && 0 <= z < size
    ensures 0 <= Index(x, y, z, size) < size * size * size
    ensures GradientAt(Index(x, y, z, size), size) == Voxel(x, y, z, size)
  {
    DecodeIndex(x, y, z, size);
  }

  /** Different voxels have different slots, so each slot is written once. */
  lemma IndexInjective(x0: int, y0: int, z0: int, x1: int, y1: int, z1: int, size: int)
    requires size >= 1
    requires 0 <= x0 < size && 0 <= y0 < size && 0 <= z0 < size
    requires 0 <= x1 < size && 0 <= y1 < size && 0 <= z1 < size
    ensures Index(x0, y0, z0, size) == Index(x1, y1, z1, size) <==> x0 == x1 && y0 == y1 && z0 == z1
  {
    DecodeIndex(x0, y0, z0, size);
    DecodeIndex(x1, y1, z1, size);
  }

  /** Whether `new Color[size * size * size]` and the loops succeed: the cube must fit in a 32-bit int. */
  predicate Allocatable(size: int)
  {
    0 <= size && size * size * size < 0x8000_0000
  }

  /** The buffer holds the gradient: every voxel has its colour in its slot. */
  ghost predicate Filled(colors: seq<Color>, size: int)
    requires size >= 0
  {
    |colors| == size * size * size &&
    forall x, y, z :: 0 <= x < size && 0 <= y < size && 0 <= z < size ==>
      0 <= Index(x, y, z, size) < |colors| && colors[Index(x, y, z, size)] == Voxel(x, y, z, size)
  }

  /** The whole gradient buffer, slot by slot. */
  function Gradient(size: int): (g: seq<Color>)
    requires size >= 1
    ensures |g| == size * size * size
    ensures forall i :: 0 <= i < |g| ==> g[i] == GradientAt(i, size)
  {
    seq(size * size * size, i requires 0 <= i => GradientAt(i, size))
  }

  /** The gradient buffer has every voxel's colour in that voxel's slot. */
  lemma GradientIsFilled(size: int)
    requires size >= 1
    ensures Filled(Gradient(size), size)
  {
    forall x, y, z | 0 <= x < size && 0 <= y < size && 0 <= z < size
      ensures 0 <= Index(x, y, z, size) < |Gradient(size)| && Gradient(size)[Index(x, y, z, size)] == Voxel(x, y, z, size)
    {
      SlotHoldsVoxel(x, y, z, size);
    }
  }

  /** The three nested loops; `idx` is the running slot they end with. */
  method FillGradient(size: int) returns (colors: array<Color>, idx: int)
    requires Allocatable(size)
    ensures fresh(colors)
    ensures idx == size * size * size == colors.Length
    ensures size >= 1 ==> colors[..] == Gradient(size)
    ensures Filled(colors[..], size)
  {
    colors := new Color[size * size * size](_ => Color(NotANumber, NotANumber, NotANumber, 1.0));
    if size == 0 {
      return colors, 0;
    }
    ghost var expected := Gradient(size);
    ghost var s2 := size * size;
    idx := 0;
    var z := 0;
    while z < size
      invariant 0 <= z <= size
      invariant idx == z * s2
      invariant 0 <= idx <= colors.Length
      invariant colors[..idx] == expected[..idx]
    {
      var y := 0;
      while y < size
        invariant 0 <= y <= size
        invariant idx == y * size + z * s2
        invariant 0 <= idx <= colors.Length
        invariant colors[..idx] == expected[..idx]
      {
        SlotHoldsVoxel(size - 1, y, z, size);
        idx := FillRow(colors, size, y, z, idx, expected);
        assert idx == (y + 1) * size + z * s2;
        y := y + 1;
      }
      assert idx == (z + 1) * s2;
      z := z + 1;
    }
    assert idx == size * size * size;
    assert colors[..] == colors[..idx];
    GradientIsFilled(size);
  }

  /** The innermost loop: row (y, z), x from 0 to size - 1, each written at the running slot. */
  method FillRow(colors: array<Color>, size: int, y: int, z: int, start: int, ghost expected: seq<Color>) returns (idx: int)
    requires size >= 1 && 0 <= y < size && 0 <= z < size
    requires expected == Gradient(size) && colors.Length == |expected|
    requires 0 <= start && start == Index(0, y, z, size) && start + size <= colors.Length && colors[..start] == expected[..start]
    modifies colors
    ensures idx == start + size && idx <= colors.Length
    ensures colors[..idx] == expected[..idx]
  {
    var sizeArray := (size - 1) as real;
    idx := start;
    var x := 0;
    while x < size
      invariant 0 <= x <= size
      invariant idx == start + x
      invariant 0 <= idx <= colors.Length
      invariant colors[..idx] == expected[..idx]
    {
      SlotHoldsVoxel(x, y, z, size);
      assert Index(x, y, z, size) == idx;
      colors[idx] := Color(Quotient(x as real, sizeArray), Quotient(y as real, sizeArray), Quotient(z as real, sizeArray), 1.0);
      assert colors[..idx + 1] == colors[..idx] + [colors[idx]];
      x, idx := x + 1, idx + 1;
    }
  }

  /** The editor window; `size` is the window's size field, 64 when it opens. */
  class Texture3DCreatorWindow {
    var size: int

    constructor ()
      ensures size == 64
    {
      size := 64;
    }

    /**
     * One OnGUI call: the size field's value is stored; the button builds the
     * buffer, which fails (the source throws) when the size is negative or
     * its cube overflows a 32-bit int.
     */
    method OnGUI(field: int, pressed: bool) returns (created: Option<array<Color>>)
      modifies this
      ensures size == field
      ensures created.Some? <==> pressed && Allocatable(field)
      ensures created.Some? ==> fresh(created.value) && Filled(created.value[..], field)
    {
      size := field;
      created := None;
      if pressed && Allocatable(size) {
        var colors, _ := FillGradient(size);
        created := Some(colors);
      }
    }
  }
}
