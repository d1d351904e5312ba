/** The catalogue page: its in-memory catalogue and cart copy, the localStorage fallback
    cart, the category filter and the cart badge. */
module Tienda {
  import opened Comun
  import BaseDatos

  const TODOS := "todos"
  const TITULO_TODOS := "Todos los repuestos"

  // ---------------------------------------------------------------------------------
  // `find` / `findIndex` / `filter`

  /** `productos.find(f)`: the first product satisfying `f`, if any. */
  function Primero(ps: seq<Producto>, f: Producto -> bool): (r: Option<Producto>)
    ensures r.Some? <==> exists i :: 0 <= i < |ps| && f(ps[i])
    ensures r.Some? ==> exists i :: 0 <= i < |ps| && ps[i] == r.value && f(ps[i])
                                    && forall j :: 0 <= j < i ==> !f(ps[j])
    decreases |ps|
  {
    if ps == [] then None
    else if f(ps[0]) then Some(ps[0])
    else
      var r := Primero(ps[1..], f);
      if r.Some? then
        var i :| 0 <= i < |ps[1..]| && ps[1..][i] == r.value && f(ps[1..][i])
                 && forall j :: 0 <= j < i ==> !f(ps[1..][j]);
        assert ps[i + 1] == r.value && forall j :: 0 <= j < i + 1 ==> !f(ps[j]);
        r
      else r
  }

  /** `lineas.findIndex(l => l.id === id)`: the position of the first line for `id`, or -1. */
  function PrimerIndice(s: seq<Linea>, id: string): (i: int)
    ensures -1 <= i < |s|
    ensures i >= 0 ==> s[i].Id() == id && forall j :: 0 <= j < i ==> s[j].Id() != id
    ensures i == -1 <==> forall j :: 0 <= j < |s| ==> s[j].Id() != id
    decreases |s|
  {
    if s == [] then -1
    else if s[0].Id() == id then 0
    else
      var r := PrimerIndice(s[1..], id);
      if r == -1 then -1 else r + 1
  }

  /** The `findIndex` loop itself. */
  method BuscarIndice(s: seq<Linea>, id: string) returns (i: int)
    ensures i == PrimerIndice(s, id)
  {
    i := 0;
    while i < |s| && s[i].Id() != id
      invariant 0 <= i <= |s|
      invariant forall j :: 0 <= j < i ==> s[j].Id() != id
    {
      i := i + 1;
    }
    if i == |s| {
      i := -1;
    }
  }

  /** `productos.filter(p => p.categoria.id === id)`. */
  function DeCategoria(ps: seq<Producto>, id: string): (r: seq<Producto>)
    ensures |r| <= |ps|
    ensures forall p :: p in r <==> p in ps && p.categoria.id == id
    decreases |ps|
  {
    if ps == [] then []
    else
      var n := |ps| - 1;
      assert ps == ps[..n] + [ps[n]];
      DeCategoria(ps[..n], id) + (if ps[n].categoria.id == id then [ps[n]] else [])
  }

  /** The filter keeps the catalogue's order: filtering two parts and joining them is
      filtering the whole. */
  lemma {:induction false} DeCategoriaConcat(a: seq<Producto>, b: seq<Producto>, id: string)
    ensures DeCategoria(a + b, id) == DeCategoria(a, id) + DeCategoria(b, id)
    decreases |b|
  {
    if b == [] {
      assert a + b == a;
    } else {
      var n := |b| - 1;
      assert (a + b)[..|a + b| - 1] == a + b[..n];
      DeCategoriaConcat(a, b[..n], id);
    }
  }

  /** A catalogue all of one category passes the filter whole. */
  lemma {:induction false} DeCategoriaTodos(ps: seq<Producto>, id: string)
    requires forall i :: 0 <= i < |ps| ==> ps[i].categoria.id == id
    ensures DeCategoria(ps, id) == ps
    decreases |ps|
  {
    if ps != [] {
      var n := |ps| - 1;
      DeCategoriaTodos(ps[..n], id);
      assert ps == ps[..n] + [ps[n]];
    }
  }

  /** A catalogue with none of the category yields nothing. */
  lemma {:induction false} DeCategoriaNinguno(ps: seq<Producto>, id: string)
    requires forall i :: 0 <= i < |ps| ==> ps[i].categoria.id != id
    ensures DeCategoria(ps, id) == []
    decreases |ps|
  {
    if ps != [] {
      var n := |ps| - 1;
      DeCategoriaNinguno(ps[..n], id);
    }
  }

  // ---------------------------------------------------------------------------------
  // Category filter

  /** What a filter renders: the heading and the product list. */
  datatype Vista = Vista(titulo: string, productos: seq<Producto>)

  function EsDeCategoria(id: string): Producto -> bool {
    (p: Producto) => p.categoria.id == id
  }

  /** `filtrarPorCategoria`: `None` when the page is left as it was. */
  function FiltrarPorCategoria(ps: seq<Producto>, categoriaId: string): (v: Option<Vista>)
    ensures categoriaId == TODOS ==> v == Some(Vista(TITULO_TODOS, ps))
    ensures categoriaId != TODOS ==>
              (v.Some? <==> exists i :: 0 <= i < |ps| && ps[i].categoria.id == categoriaId)
    ensures categoriaId != TODOS && v.Some? ==>
              && v.value.productos == DeCategoria(ps, categoriaId)
              && v.value.productos != []
              && exists i :: && 0 <= i < |ps| && ps[i].categoria.id == categoriaId
                             && v.value.titulo == ps[i].categoria.nombre
                             && forall j :: 0 <= j < i ==> ps[j].categoria.id != categoriaId
  {
    if categoriaId != TODOS then
      var primero := Primero(ps, EsDeCategoria(categoriaId));
      if primero.Some? then
        assert primero.value in DeCategoria(ps, categoriaId);
        Some(Vista(primero.value.categoria.nombre, DeCategoria(ps, categoriaId)))
      else None
    else Some(Vista(TITULO_TODOS, ps))
  }

  // ---------------------------------------------------------------------------------
  // The find-or-push rule

  /** One more unit of the line for `id` if the cart has one, else `p` appended with one unit
      (`{...p, cantidad: 1}`, no dates). */
  function ConUnidadMas(s: seq<Linea>, p: Producto, id: string): (r: seq<Linea>)
    ensures var i := PrimerIndice(s, id);
              i >= 0 ==> && |r| == |s|
                         && r[i].producto == s[i].producto && r[i].cantidad == s[i].cantidad + 1
                         && forall j :: 0 <= j < |s| && j != i ==> r[j] == s[j]
    ensures PrimerIndice(s, id) == -1 ==> r == s + [Linea(p, 1, None, None)]
  {
    var i := PrimerIndice(s, id);
    if i != -1 then s[i := s[i].(cantidad := s[i].cantidad + 1)] else s + [Linea(p, 1, None, None)]
  }

  /** The rule keeps product ids unique when the key is the product's own id. */
  lemma UnidadMasIdsUnicos(s: seq<Linea>, p: Producto)
    requires IdsUnicos(s)
    ensures IdsUnicos(ConUnidadMas(s, p, p.id))
  {
    var r := ConUnidadMas(s, p, p.id);
    if PrimerIndice(s, p.id) >= 0 {
      forall i, j | 0 <= i < j < |r| ensures r[i].Id() != r[j].Id() {
        assert r[i].Id() == s[i].Id() && r[j].Id() == s[j].Id();
      }
    }
  }

  /** The rule puts exactly one more unit in the cart. */
  lemma UnidadMasSumaUno(s: seq<Linea>, p: Producto, id: string)
    ensures Suma(ConUnidadMas(s, p, id), Cantidad) == Suma(s, Cantidad) + 1
  {
    var i := PrimerIndice(s, id);
    if i >= 0 {
      SumaReemplazo(s, i, s[i].(cantidad := s[i].cantidad + 1), Cantidad);
    } else {
      SumaConcat(s, [Linea(p, 1, None, None)], Cantidad);
      assert [Linea(p, 1, None, None)][..0] == [];
    }
  }

  /** The in-place `lineas[index].cantidad++` / `lineas.push(...)` step. */
  method SumarUnidad(s: seq<Linea>, p: Producto, id: string) returns (r: seq<Linea>)
    ensures r == ConUnidadMas(s, p, id)
  {
    r := s;
    var index := BuscarIndice(r, id);
    if index != -1 {
      r := r[index := r[index].(cantidad := r[index].cantidad + 1)];
    } else {
      r := r + [Linea(p, 1, None, None)];
    }
  }

  // ---------------------------------------------------------------------------------
  // The page's cart copy against the cart store

  /** The page's copy lists the store's lines, once each, with the store's quantities. */
  ghost predicate Refleja(s: seq<Linea>, m: map<string, Linea>) {
    && IdsUnicos(s)
    && (forall i :: 0 <= i < |s| ==> s[i].Id() in m && s[i].cantidad == m[s[i].Id()].cantidad)
    && (forall k :: k in m ==> exists i :: 0 <= i < |s| && s[i].Id() == k)
  }

  /** A listing read from the store mirrors it. */
  lemma LecturaRefleja(s: seq<Linea>, m: map<string, Linea>)
    requires Enumera(s, m)
    ensures Refleja(s, m)
  {
    var ks := IdsDeLineas(s);
    ContarImagen(s);
    assert ks <= m.Keys;
    assert m.Keys == ks + (m.Keys - ks);
    assert ks * (m.Keys - ks) == {};
    assert |m.Keys - ks| == 0;
    forall k | k in m ensures exists i :: 0 <= i < |s| && s[i].Id() == k {
      assert k !in m.Keys - ks;
    }
  }

  /** The product ids a list of lines names. */
  ghost function IdsDeLineas(s: seq<Linea>): set<string> {
    set i | 0 <= i < |s| :: s[i].Id()
  }

  lemma IdsDeLineasAnexar(s: seq<Linea>, l: Linea)
    ensures IdsDeLineas(s + [l]) == IdsDeLineas(s) + {l.Id()}
  {
    var t := s + [l];
    forall x | x in IdsDeLineas(t) ensures x in IdsDeLineas(s) + {l.Id()} {
      var i :| 0 <= i < |t| && t[i].Id() == x;
      if i < |s| { assert s[i].Id() == x; }
    }
    forall x | x in IdsDeLineas(s) + {l.Id()} ensures x in IdsDeLineas(t) {
      if x == l.Id() { assert t[|s|].Id() == x; }
      else { var i :| 0 <= i < |s| && s[i].Id() == x; assert t[i].Id() == x; }
    }
  }

  /** Distinct ids: as many ids as lines. */
  lemma {:induction false} ContarImagen(s: seq<Linea>)
    requires IdsUnicos(s)
    ensures |IdsDeLineas(s)| == |s|
    decreases |s|
  {
    if s != [] {
      var n := |s| - 1;
      var t := s[..n];
      assert IdsUnicos(t) by {
        forall i, j | 0 <= i < j < |t| ensures t[i].Id() != t[j].Id() {
          assert t[i] == s[i] && t[j] == s[j];
        }
      }
      ContarImagen(t);
      assert s == t + [s[n]];
      IdsDeLineasAnexar(t, s[n]);
      assert s[n].Id() !in IdsDeLineas(t) by {
        forall i | 0 <= i < |t| ensures t[i].Id() != s[n].Id() { assert t[i] == s[i]; }
      }
    }
  }

  /** Adding a product whose line exists: the page bumps that entry, the store that line. */
  lemma ReflejoTrasIncrementar(s: seq<Linea>, m: map<string, Linea>, p: Producto, ahora: Instante)
    requires Refleja(s, m) && p.id in m
    ensures Refleja(ConUnidadMas(s, p, p.id), BaseDatos.AgregarLinea(m, p, ahora))
  {
    var r := ConUnidadMas(s, p, p.id);
    var m' := BaseDatos.AgregarLinea(m, p, ahora);
    UnidadMasIdsUnicos(s, p);
    var i := PrimerIndice(s, p.id);
    assert i >= 0 by {
      var j :| 0 <= j < |s| && s[j].Id() == p.id;
    }
    assert |r| == |s|;
    forall j | 0 <= j < |r| ensures r[j].Id() in m' && r[j].cantidad == m'[r[j].Id()].cantidad {
      if j == i {
        assert r[j].Id() == p.id;
      } else {
        assert r[j] == s[j];
        assert s[j].Id() != p.id by { assert s[i].Id() == p.id; }
      }
    }
    forall k | k in m' ensures exists j :: 0 <= j < |r| && r[j].Id() == k {
      var j :| 0 <= j < |s| && s[j].Id() == k;
      assert r[j].Id() == k;
    }
  }

  /** Adding a product with no line yet: both sides gain a one-unit line for it. */
  lemma ReflejoTrasAnexar(s: seq<Linea>, m: map<string, Linea>, p: Producto, ahora: Instante)
    requires Refleja(s, m) && p.id !in m
    ensures Refleja(ConUnidadMas(s, p, p.id), BaseDatos.AgregarLinea(m, p, ahora))
  {
    var r := ConUnidadMas(s, p, p.id);
    var m' := BaseDatos.AgregarLinea(m, p, ahora);
    UnidadMasIdsUnicos(s, p);
    assert PrimerIndice(s, p.id) == -1 by {
      forall j | 0 <= j < |s| ensures s[j].Id() != p.id { }
    }
    assert r == s + [Linea(p, 1, None, None)];
    forall j | 0 <= j < |r| ensures r[j].Id() in m' && r[j].cantidad == m'[r[j].Id()].cantidad {
      if j < |s| {
        assert r[j] == s[j];
      }
    }
    forall k | k in m' ensures exists j :: 0 <= j < |r| && r[j].Id() == k {
      if k == p.id {
        assert r[|s|].Id() == k;
      } else {
        var j :| 0 <= j < |s| && s[j].Id() == k;
        assert r[j].Id() == k;
      }
    }
  }

  /** Adding a product on the page and in the store keeps the page's copy a mirror of the store. */
  lemma ReflejoTrasAgregar(s: seq<Linea>, m: map<string, Linea>, p: Producto, ahora: Instante)
    requires Refleja(s, m)
    ensures Refleja(ConUnidadMas(s, p, p.id), BaseDatos.AgregarLinea(m, p, ahora))
  {
    if p.id in m {
      ReflejoTrasIncrementar(s, m, p, ahora);
    } else {
      ReflejoTrasAnexar(s, m, p, ahora);
    }
  }

  /** While the page mirrors the store, the badge is the same whichever of the two it sums. */
  lemma {:induction false} ReflejoMismoContador(s: seq<Linea>, m: map<string, Linea>)
    requires Refleja(s, m)
    ensures Suma(s, Cantidad) == SumaMapa(m, Cantidad)
    decreases |s|
  {
    if s == [] {
      assert m.Keys == {};
      assert m == map[];
    } else {
      var n := |s| - 1;
      var k := s[n].Id();
      ReflejoSinUltima(s, m);
      ReflejoMismoContador(s[..n], m - {k});
      SumaMapaQuitar(m, k, Cantidad);
    }
  }

  /** Dropping the last line of the copy and its key from the store keeps the mirror. */
  lemma ReflejoSinUltima(s: seq<Linea>, m: map<string, Linea>)
    requires Refleja(s, m) && s != []
    ensures Refleja(s[..|s| - 1], m - {s[|s| - 1].Id()})
  {
    var n := |s| - 1;
    var t := s[..n];
    var k := s[n].Id();
    var m' := m - {k};
    assert IdsUnicos(t) by {
      forall i, j | 0 <= i < j < |t| ensures t[i].Id() != t[j].Id() {
        assert t[i] == s[i] && t[j] == s[j];
      }
    }
    forall i | 0 <= i < |t| ensures t[i].Id() in m' && t[i].cantidad == m'[t[i].Id()].cantidad {
      assert t[i] == s[i];
      assert s[i].Id() != k;
    }
    forall k' | k' in m' ensures exists i :: 0 <= i < |t| && t[i].Id() == k' {
      var i :| 0 <= i < |s| && s[i].Id() == k';
      assert i != n;
      assert t[i] == s[i];
    }
  }

  // ---------------------------------------------------------------------------------
  // The page

  /** `dato ? JSON.parse(dato) : productos.find(p => p.id === idBoton)`. */
  function Elegido(dato: Option<Producto>, ps: seq<Producto>, idBoton: string): Option<Producto> {
    if dato.Some? then dato else Primero(ps, (p: Producto) => p.id == idBoton)
  }

  class Pagina {
    /** The catalogue the page shows. */
    var productos: seq<Producto>
    /** The page's own copy of the cart. */
    var productosEnCarrito: seq<Linea>
    /** localStorage key "productos-en-carrito"; `None` while the key is missing. */
    var almacenLocal: Option<seq<Linea>>
    /** The text of the cart badge. */
    var numerito: int

    constructor (catalogo: seq<Producto>, guardado: Option<seq<Linea>>)
      ensures productos == catalogo && productosEnCarrito == [] && almacenLocal == guardado && numerito == 0
    {
      productos := catalogo;
      productosEnCarrito := [];
      almacenLocal := guardado;
      numerito := 0;
    }

    /** `actualizarNumerito`: the store's count when there is a store, otherwise the sum of
        the copy's quantities. */
    method ActualizarNumerito(db: BaseDatos.DBManager?)
      requires db != null ==> db.Valid()
      modifies this`numerito
      ensures db != null ==> numerito == SumaMapa(db.carrito, Cantidad)
      ensures db == null ==> numerito == Suma(productosEnCarrito, Cantidad)
    {
      if db != null {
        numerito := db.ObtenerContadorCarrito();
      } else {
        numerito := Suma(productosEnCarrito, Cantidad);
      }
    }

    /** `cargarCarritoDesdeLocalStorage`: the stored list, or an empty cart when the key is missing. */
    method CargarCarritoDesdeLocalStorage(db: BaseDatos.DBManager?)
      requires db != null ==> db.Valid()
      modifies this`productosEnCarrito, this`numerito
      ensures productosEnCarrito == almacenLocal.GetOr([])
      ensures almacenLocal.None? ==> productosEnCarrito == []
      ensures db != null ==> numerito == SumaMapa(db.carrito, Cantidad)
      ensures db == null ==> numerito == Suma(productosEnCarrito, Cantidad)
    {
      if almacenLocal.Some? {
        productosEnCarrito := almacenLocal.value;
      } else {
        productosEnCarrito := [];
      }
      ActualizarNumerito(db);
    }

    /** `cargarCarritoDesdeDB`: the copy is a listing of the cart store; without a store, the
        localStorage fallback. */
    method CargarCarritoDesdeDB(db: BaseDatos.DBManager?)
      requires db != null ==> db.Valid()
      modifies this`productosEnCarrito, this`numerito
      ensures db != null ==> Enumera(productosEnCarrito, db.carrito) && Refleja(productosEnCarrito, db.carrito)
      ensures db != null ==> numerito == Suma(productosEnCarrito, Cantidad)
      ensures db == null ==> productosEnCarrito == almacenLocal.GetOr([])
      ensures db == null ==> numerito == Suma(productosEnCarrito, Cantidad)
    {
      if db != null {
        productosEnCarrito := db.ObtenerCarrito();
        LecturaRefleja(productosEnCarrito, db.carrito);
        ReflejoMismoContador(productosEnCarrito, db.carrito);
        ActualizarNumerito(db);
      } else {
        CargarCarritoDesdeLocalStorage(db);
      }
    }

    /** `agregarAlCarritoLocalStorage`. */
    method AgregarAlCarritoLocalStorage(p: Producto)
      modifies this`almacenLocal
      ensures almacenLocal == Some(ConUnidadMas(old(almacenLocal).GetOr([]), p, p.id))
    {
      var productosLS := almacenLocal.GetOr([]);
      productosLS := SumarUnidad(productosLS, p, p.id);
      almacenLocal := Some(productosLS);
    }

    /** `agregarAlCarrito` (the click handler): pick the product, add it to the store, fall back
        to localStorage only when the store did not report success, update the page's copy by
        the button id, refresh the badge. */
    method AgregarAlCarrito(idBoton: string, dato: Option<Producto>, db: BaseDatos.DBManager?,
                            ahora: Instante, falloRegistro: bool)
      requires db != null ==> db.Valid()
      modifies this`productosEnCarrito, this`almacenLocal, this`numerito
      modifies db
      ensures db != null ==> db.Valid()
      ensures db != null ==> && db.version == old(db.version) && db.esquema == old(db.esquema)
                             && db.productos == old(db.productos) && db.config == old(db.config)
                             && db.compras == old(db.compras) && db.isOnline == old(db.isOnline)
      ensures Elegido(dato, productos, idBoton).None? ==>
                && productosEnCarrito == old(productosEnCarrito) && almacenLocal == old(almacenLocal)
                && numerito == old(numerito)
                && (db != null ==> && db.carrito == old(db.carrito) && db.sincronizacion == old(db.sincronizacion)
                                   && db.siguienteId == old(db.siguienteId))
      ensures Elegido(dato, productos, idBoton).Some? ==>
                var p := Elegido(dato, productos, idBoton).value;
                && productosEnCarrito == ConUnidadMas(old(productosEnCarrito), p, idBoton)
                && (db != null ==> && db.carrito == BaseDatos.AgregarLinea(old(db.carrito), p, ahora)
                                   && BaseDatos.Anotada(old(db.sincronizacion), old(db.siguienteId),
                                                        db.sincronizacion, db.siguienteId,
                                                        BaseDatos.CarritoActualizado,
                                                        BaseDatos.DatosProducto(p.id, BaseDatos.Agregar, ahora),
                                                        ahora, falloRegistro)
                                   && almacenLocal == old(almacenLocal)
                                   && numerito == SumaMapa(db.carrito, Cantidad))
                && (db == null ==> && almacenLocal == Some(ConUnidadMas(old(almacenLocal).GetOr([]), p, p.id))
                                   && numerito == Suma(productosEnCarrito, Cantidad))
    {
      var productoAgregado := Elegido(dato, productos, idBoton);
      if productoAgregado.None? {
        return;
      }
      var p := productoAgregado.value;
      var agregadoExitosamente := false;
      if db != null {
        var r := db.AgregarAlCarrito(p, ahora, falloRegistro);
        agregadoExitosamente := r == BaseDatos.Ok;
      }
      if !agregadoExitosamente {
        AgregarAlCarritoLocalStorage(p);
      }
      productosEnCarrito := SumarUnidad(productosEnCarrito, p, idBoton);
      ActualizarNumerito(db);
    }
  }

  /** A click keeps the page's copy a mirror of the store, so the badge from the store equals
      the sum of the copy. */
  lemma ClicMantieneReflejo(s: seq<Linea>, m: map<string, Linea>, p: Producto, ahora: Instante)
    requires Refleja(s, m)
    ensures Refleja(ConUnidadMas(s, p, p.id), BaseDatos.AgregarLinea(m, p, ahora))
    ensures Suma(ConUnidadMas(s, p, p.id), Cantidad) == SumaMapa(BaseDatos.AgregarLinea(m, p, ahora), Cantidad)
  {
    ReflejoTrasAgregar(s, m, p, ahora);
    ReflejoMismoContador(ConUnidadMas(s, p, p.id), BaseDatos.AgregarLinea(m, p, ahora));
  }
}
