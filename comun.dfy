/** Values shared by the store, the cart page and the catalogue page:
    products, cart lines, purchase records, and the `reduce` sums over cart lines. */
module Comun {

  datatype Option<T> = None | Some(value: T) {
    /** `x || fallback` / `x ? x : fallback` on a possibly missing value. */
    function GetOr(fallback: T): T {
      match this
      case Some(v) => v
      case None => fallback
    }
  }

  /** A `new Date()` value. The model only stores and compares them, so any totally
      ordered carrier will do; the callers pass the current instant in. */
  type Instante = int

  datatype Categoria = Categoria(id: string, nombre: string)

  /** A catalogue product. Prices are whole pesos, so integer arithmetic is exact. */
  datatype Producto = Producto(id: string, titulo: string, precio: int, imagen: string, categoria: Categoria)

  /** A cart line `{...producto, cantidad, fechaAgregado, fechaActualizacion}`.
      Lines built by the catalogue page (in memory or in localStorage) carry no dates. */
  datatype Linea = Linea(producto: Producto, cantidad: int,
                         fechaAgregado: Option<Instante>, fechaActualizacion: Option<Instante>)
  {
    function Id(): string { producto.id }
  }

  /** A purchase-history record (object store `compras`, key `id`). */
  datatype Compra = Compra(id: string, fecha: Instante, productos: seq<Linea>,
                           total: int, cantidad: int, estado: string)

  /** The two weights the source sums over a cart. */
  function Cantidad(l: Linea): int { l.cantidad }
  function Subtotal(l: Linea): int { l.producto.precio * l.cantidad }

  /** `lineas.reduce((acc, l) => acc + f(l), 0)`: a left fold, last line added last. */
  function Suma(s: seq<Linea>, f: Linea -> int): int
    decreases |s|
  {
    if s == [] then 0 else Suma(s[..|s| - 1], f) + f(s[|s| - 1])
  }

  /** No two lines share a product id. */
  predicate IdsUnicos(s: seq<Linea>) {
    forall i, j :: 0 <= i < j < |s| ==> s[i].Id() != s[j].Id()
  }

  /** `s` lists each line of the store `m` exactly once, in some order:
      what `getAll()` on a store keyed by product id yields. */
  ghost predicate Enumera(s: seq<Linea>, m: map<string, Linea>) {
    && |s| == |m|
    && IdsUnicos(s)
    && forall i :: 0 <= i < |s| ==> s[i].Id() in m && m[s[i].Id()] == s[i]
  }

  /** The sum of `f` over the lines of a store, independent of any listing order. */
  ghost function SumaMapa(m: map<string, Linea>, f: Linea -> int): int
    decreases |m|
  {
    if m == map[] then 0
    else
      var k :| k in m;
      assert (m - {k}).Keys == m.Keys - {k};
      f(m[k]) + SumaMapa(m - {k}, f)
  }

  lemma {:induction false} SumaConcat(a: seq<Linea>, b: seq<Linea>, f: Linea -> int)
    ensures Suma(a + b, f) == Suma(a, f) + Suma(b, f)
    decreases |b|
  {
    if b == [] {
      assert a + b == a;
    } else {
      var b' := b[..|b| - 1];
      assert (a + b)[..|a + b| - 1] == a + b';
      SumaConcat(a, b', f);
    }
  }

  /** Replacing one line changes the sum by exactly the change in that line's weight. */
  lemma {:induction false} SumaReemplazo(s: seq<Linea>, i: nat, l: Linea, f: Linea -> int)
    requires i < |s|
    ensures Suma(s[i := l], f) == Suma(s, f) - f(s[i]) + f(l)
    decreases |s|
  {
    var n := |s| - 1;
    if i < n {
      assert s[i := l][..n] == s[..n][i := l];
      SumaReemplazo(s[..n], i, l, f);
    } else {
      assert s[i := l][..n] == s[..n];
    }
  }

  /** If every line weighs at least `w`, the sum is at least `w` times the number of lines. */
  lemma {:induction false} SumaCotaInferior(s: seq<Linea>, f: Linea -> int, w: int)
    requires forall i :: 0 <= i < |s| ==> f(s[i]) >= w
    ensures Suma(s, f) >= w * |s|
    decreases |s|
  {
    if s != [] {
      SumaCotaInferior(s[..|s| - 1], f, w);
    }
  }

  /** The store sum may be computed by taking out any line first, not only the one the
      definition happens to choose. */
  lemma {:induction false} SumaMapaQuitar(m: map<string, Linea>, k: string, f: Linea -> int)
    requires k in m
    ensures SumaMapa(m, f) == f(m[k]) + SumaMapa(m - {k}, f)
    decreases |m|
  {
    var j :| j in m && SumaMapa(m, f) == f(m[j]) + SumaMapa(m - {j}, f);
    if j != k {
      assert (m - {j}).Keys == m.Keys - {j};
      assert (m - {k}).Keys == m.Keys - {k};
      SumaMapaQuitar(m - {j}, k, f);
      SumaMapaQuitar(m - {k}, j, f);
      assert m - {j} - {k} == m - {k} - {j};
    }
  }

  /** Writing line `l` under key `k` (insert or overwrite) moves the store sum accordingly. */
  lemma SumaMapaPoner(m: map<string, Linea>, k: string, l: Linea, f: Linea -> int)
    ensures SumaMapa(m[k := l], f) == SumaMapa(m - {k}, f) + f(l)
  {
    SumaMapaQuitar(m[k := l], k, f);
    assert m[k := l] - {k} == m - {k};
  }

  /** Summing any listing of a store gives the store sum: the order `getAll` picks is irrelevant. */
  lemma {:induction false} SumaEnumeracion(s: seq<Linea>, m: map<string, Linea>, f: Linea -> int)
    requires Enumera(s, m)
    ensures Suma(s, f) == SumaMapa(m, f)
    decreases |s|
  {
    if s == [] {
      assert m.Keys == {};
      assert m == map[];
    } else {
      var n := |s| - 1;
      var k := s[n].Id();
      var m' := m - {k};
      assert m'.Keys == m.Keys - {k};
      assert Enumera(s[..n], m') by {
        forall i | 0 <= i < n
          ensures s[..n][i].Id() in m' && m'[s[..n][i].Id()] == s[..n][i]
        {
          assert s[i].Id() != k;
        }
      }
      SumaEnumeracion(s[..n], m', f);
      SumaMapaQuitar(m, k, f);
    }
  }

  /** A store all of whose lines weigh at least 1 sums to at least its number of lines. */
  lemma {:induction false} SumaMapaCotaInferior(m: map<string, Linea>, f: Linea -> int)
    requires forall k :: k in m ==> f(m[k]) >= 1
    ensures SumaMapa(m, f) >= |m|
    decreases |m|
  {
    if m != map[] {
      var k :| k in m;
      assert (m - {k}).Keys == m.Keys - {k};
      SumaMapaQuitar(m, k, f);
      SumaMapaCotaInferior(m - {k}, f);
    }
  }

  /** The keys of a store in the order `getAll()` yields them; the model leaves that order open. */
  method ClavesDe<K(==), V>(m: map<K, V>) returns (ks: seq<K>)
    ensures |ks| == |m|
    ensures forall i :: 0 <= i < |ks| ==> ks[i] in m
    ensures forall i, j :: 0 <= i < j < |ks| ==> ks[i] != ks[j]
  {
    ks := [];
    var resto := m.Keys;
    while resto != {}
      invariant resto <= m.Keys
      invariant |ks| + |resto| == |m|
      invariant forall i :: 0 <= i < |ks| ==> ks[i] in m && ks[i] !in resto
      invariant forall i, j :: 0 <= i < j < |ks| ==> ks[i] != ks[j]
      decreases resto
    {
      var k :| k in resto;
      ks := ks + [k];
      resto := resto - {k};
    }
  }
}
