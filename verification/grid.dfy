/** A worksheet: cell values and cell fills, addressed by (row, column), both 1-based. */
module Grid {
  import opened Formulas

  type Addr = (nat, nat)

  datatype Value = Text(s: string) | Number(x: real) | Calc(f: Formula)

  /**
   * A solid fill. Generated cohort colours are kept as HLS (hue in degrees,
   * lightness and saturation in percent); fixed colours as their RGB hex code.
   */
  datatype Fill = Hls(hue: nat, lightness: nat, saturation: nat) | Rgb(hex: string)

  class Sheet {
    var cells: map<Addr, Value>
    var fills: map<Addr, Fill>

    constructor ()
      ensures cells == map[] && fills == map[]
    {
      cells := map[];
      fills := map[];
    }

    /** ws.cell(row=row, column=col, value=v) */
    method Put(row: nat, col: nat, v: Value)
      modifies this
      ensures cells == old(cells)[(row, col) := v]
      ensures fills == old(fills)
    {
      cells := cells[(row, col) := v];
    }

    /** cell.fill = PatternFill(fill_type="solid", ...) */
    method Paint(row: nat, col: nat, f: Fill)
      modifies this
      ensures fills == old(fills)[(row, col) := f]
      ensures cells == old(cells)
    {
      fills := fills[(row, col) := f];
    }
  }

  /** The numbers column `col` holds; any other cell reads as 0. */
  function NumbersIn(cells: map<Addr, Value>, col: nat): Column
  {
    r => if (r, col) in cells && cells[(r, col)].Number? then cells[(r, col)].x else 0.0
  }

  // ----- Reshaping a run of writes into a union of maps -----

  lemma UpdateAsUnion<K, V>(m: map<K, V>, k: K, v: V)
    ensures m[k := v] == m + map[k := v]
  {
  }

  lemma UpdateUnion<K, V>(m: map<K, V>, a: map<K, V>, k: K, v: V)
    ensures (m + a)[k := v] == m + a[k := v]
  {
  }

  lemma SameUpdate<K, V>(m: map<K, V>, k: K, v: V, w: V)
    requires v == w
    ensures m[k := v] == m[k := w]
  {
  }

  lemma UnionAssoc<K, V>(a: map<K, V>, b: map<K, V>, c: map<K, V>)
    ensures a + b + c == a + (b + c)
  {
  }

  lemma EmptyUnion<K, V>(m: map<K, V>)
    ensures map[] + m == m
  {
  }

  lemma TwoUpdates<K, V>(m: map<K, V>, k0: K, v0: V, k1: K, v1: V)
    ensures m[k0 := v0][k1 := v1] == m + map[k0 := v0][k1 := v1]
  {
  }

  /** Four writes in a row add the map of those four writes. */
  lemma FourUpdates<K, V>(m: map<K, V>, k0: K, v0: V, k1: K, v1: V, k2: K, v2: V, k3: K, v3: V)
    ensures m[k0 := v0][k1 := v1][k2 := v2][k3 := v3] == m + map[k0 := v0][k1 := v1][k2 := v2][k3 := v3]
  {
  }

  lemma ThreeParts<K, V>(m: map<K, V>, a: map<K, V>, b: map<K, V>, c: map<K, V>)
    ensures m + a + b + c == m + (a + b + c)
  {
  }

  lemma FourParts<K, V>(m: map<K, V>, a: map<K, V>, b: map<K, V>, c: map<K, V>, d: map<K, V>)
    ensures m + a + b + c + d == m + (a + b + c + d)
  {
    ThreeParts(m, a, b, c);
    UnionAssoc(m, a + b + c, d);
  }

  /** Two parts already added, then a block of four. */
  lemma FrontAndBody<K, V>(m: map<K, V>, a: map<K, V>, b: map<K, V>, c: map<K, V>, d: map<K, V>, e: map<K, V>, f: map<K, V>)
    ensures m + a + b + (c + d + e + f) == m + (a + b + c + d + e + f)
  {
    FourParts(m + a + b, c, d, e, f);
    SixParts(m, a, b, c, d, e, f);
  }

  lemma SixParts<K, V>(m: map<K, V>, a: map<K, V>, b: map<K, V>, c: map<K, V>, d: map<K, V>, e: map<K, V>, f: map<K, V>)
    ensures m + a + b + c + d + e + f == m + (a + b + c + d + e + f)
  {
    ThreeParts(m, a, b, c);
    ThreeParts(m, a + b + c, d, e);
    UnionAssoc(m, a + b + c + d + e, f);
  }
}
