/** The IndexedDB manager of the storefront: five object stores, each a map from its
    primary key to its records, plus the connectivity flag. Every asynchronous method is
    one atomic step on those maps; `new Date()` is passed in as `ahora`. */
module BaseDatos {
  import opened Comun

  // ---------------------------------------------------------------------------------
  // Records

  /** A catalogue record as `guardarProductos` stores it: the product plus its save time. */
  datatype ProductoGuardado = ProductoGuardado(producto: Producto, fechaActualizacion: Instante)

  /** A settings record `{key, value, timestamp}`; values are kept in their serialised form. */
  datatype EntradaConfig = EntradaConfig(key: string, value: string, timestamp: Instante)

  datatype TipoAccion = CarritoActualizado | CarritoVaciado
  datatype Operacion = Agregar | Eliminar

  /** The `datos` payload of a sync entry: `{productoId, accion, timestamp}` or `{timestamp}`. */
  datatype Datos =
    | DatosProducto(productoId: string, accion: Operacion, timestamp: Instante)
    | DatosVaciado(timestamp: Instante)

  /** A sync-log entry; `id` is the key the auto-increment generator gave it. */
  datatype AccionSync = AccionSync(id: nat, tipo: TipoAccion, datos: Datos, timestamp: Instante,
                                   sincronizado: bool, fechaSincronizacion: Option<Instante>)

  datatype Estadisticas = Estadisticas(totalProductos: nat, productosEnCarrito: nat,
                                       valorTotalCarrito: int, accionesPendientesSincronizacion: nat,
                                       ultimaActualizacion: Option<Instante>)

  /** How a store method settles: resolved, or rejected with an error. */
  datatype Error = NoEncontrado | ClaveDuplicada
  datatype Resultado = Ok | Err(error: Error)

  // ---------------------------------------------------------------------------------
  // Schema

  const DB_VERSION: nat := 1

  /** The five object stores `createStores` declares. */
  datatype Almacen = Productos | CarritoStore | Config | Sincronizacion | Compras

  /** The name each store is created under. */
  function Nombre(a: Almacen): string {
    match a
    case Productos => "productos"
    case CarritoStore => "carrito"
    case Config => "config"
    case Sincronizacion => "sincronizacion"
    case Compras => "compras"
  }

  /** An object store's declaration: key path, key generator, and index name -> key path. */
  datatype DefStore = DefStore(keyPath: string, autoIncrement: bool, indices: map<string, string>)

  const TODOS_LOS_STORES: set<Almacen> := {Productos, CarritoStore, Config, Sincronizacion, Compras}

  /** The declaration `createStores` gives each of the five stores. */
  function Definicion(a: Almacen): DefStore {
    match a
    case Productos => DefStore("id", false, map["categoria" := "categoria.id", "precio" := "precio"])
    case CarritoStore => DefStore("id", false, map["fechaAgregado" := "fechaAgregado"])
    case Config => DefStore("key", false, map[])
    case Sincronizacion => DefStore("id", true, map["tipo" := "tipo", "timestamp" := "timestamp"])
    case Compras => DefStore("id", false, map["fecha" := "fecha", "estado" := "estado"])
  }

  /** The schema after the upgrade step: every missing store is added with its declaration,
      existing ones are kept. */
  function EsquemaCompleto(e: map<Almacen, DefStore>): (r: map<Almacen, DefStore>)
    ensures r.Keys == e.Keys + TODOS_LOS_STORES
    ensures forall n :: n in e ==> r[n] == e[n]
    ensures forall n :: n in TODOS_LOS_STORES && n !in e ==> r[n] == Definicion(n)
  {
    map n | n in e.Keys + TODOS_LOS_STORES :: if n in e then e[n] else Definicion(n)
  }

  /** Re-running the upgrade step changes nothing. */
  lemma EsquemaIdempotente(e: map<Almacen, DefStore>)
    ensures EsquemaCompleto(EsquemaCompleto(e)) == EsquemaCompleto(e)
  {
  }

  /** Part way through `createStores`: the stores in `hechos` have been visited. */
  ghost predicate Avance(e0: map<Almacen, DefStore>, e: map<Almacen, DefStore>, hechos: set<Almacen>) {
    && e.Keys == e0.Keys + hechos
    && forall n :: n in e ==> e[n] == if n in e0 then e0[n] else Definicion(n)
  }

  lemma CincoStores()
    ensures {} + {Productos} + {CarritoStore} + {Config} + {Sincronizacion} + {Compras} == TODOS_LOS_STORES
  {
  }

  lemma AvanceCompleto(e0: map<Almacen, DefStore>, e: map<Almacen, DefStore>)
    requires Avance(e0, e, TODOS_LOS_STORES)
    ensures e == EsquemaCompleto(e0)
  {
  }

  // ---------------------------------------------------------------------------------
  // Store invariants

  /** `s` lists each record of the catalogue store `m` exactly once, in some order: what
      `getAll()` on `productos` yields. */
  ghost predicate ListaCatalogo(s: seq<ProductoGuardado>, m: map<string, ProductoGuardado>) {
    && |s| == |m|
    && (forall i, j :: 0 <= i < j < |s| ==> s[i].producto.id != s[j].producto.id)
    && forall i :: 0 <= i < |s| ==> s[i].producto.id in m && m[s[i].producto.id] == s[i]
  }

  /** Every cart line is stored under its own product id and holds at least one unit. */
  ghost predicate CarritoValido(m: map<string, Linea>) {
    forall k :: k in m ==> m[k].Id() == k && m[k].cantidad >= 1
  }

  /** Every sync entry is stored under its own id, a key the generator has already issued. */
  ghost predicate RegistroValido(log: map<nat, AccionSync>, siguiente: nat) {
    && siguiente >= 1
    && forall k :: k in log ==> 1 <= k < siguiente && log[k].id == k
  }

  /** The keys of the entries still waiting to be synchronised. */
  ghost function Pendientes(log: map<nat, AccionSync>): set<nat> {
    set k | k in log && !log[k].sincronizado
  }

  ghost function PendientesBajo(log: map<nat, AccionSync>, n: nat): set<nat> {
    set k | k in log && k < n && !log[k].sincronizado
  }

  ghost function IdsDe(s: seq<AccionSync>): set<nat> {
    set i | 0 <= i < |s| :: s[i].id
  }

  lemma IdsDeAnexar(s: seq<AccionSync>, a: AccionSync)
    ensures IdsDe(s + [a]) == IdsDe(s) + {a.id}
  {
    var t := s + [a];
    forall x | x in IdsDe(t) ensures x in IdsDe(s) + {a.id} {
      var i :| 0 <= i < |t| && t[i].id == x;
      if i < |s| { assert s[i].id == x; }
    }
    forall x | x in IdsDe(s) + {a.id} ensures x in IdsDe(t) {
      if x == a.id { assert t[|s|].id == x; }
      else { var i :| 0 <= i < |s| && s[i].id == x; assert t[i].id == x; }
    }
  }

  // ---------------------------------------------------------------------------------
  // Cart store transitions

  /** `agregarAlCarrito` on the `carrito` store: bump an existing line, or add a fresh one. */
  function AgregarLinea(m: map<string, Linea>, p: Producto, ahora: Instante): (r: map<string, Linea>)
    ensures r.Keys == m.Keys + {p.id}
    ensures r[p.id].cantidad == (if p.id in m then m[p.id].cantidad + 1 else 1)
    ensures r[p.id].producto == (if p.id in m then m[p.id].producto else p)
    ensures r[p.id].fechaActualizacion == Some(ahora)
    ensures forall k :: k in m && k != p.id ==> r[k] == m[k]
    ensures CarritoValido(m) ==> CarritoValido(r)
  {
    if p.id in m then m[p.id := m[p.id].(cantidad := m[p.id].cantidad + 1, fechaActualizacion := Some(ahora))]
    else m[p.id := Linea(p, 1, Some(ahora), Some(ahora))]
  }

  /** `incrementarCantidad` on a line that is present. */
  function IncrementarLinea(m: map<string, Linea>, id: string, ahora: Instante): (r: map<string, Linea>)
    requires id in m
    ensures r.Keys == m.Keys
    ensures r[id].cantidad == m[id].cantidad + 1 && r[id].producto == m[id].producto
    ensures forall k :: k in m && k != id ==> r[k] == m[k]
    ensures CarritoValido(m) ==> CarritoValido(r)
  {
    m[id := m[id].(cantidad := m[id].cantidad + 1, fechaActualizacion := Some(ahora))]
  }

  /** `decrementarCantidad` on a line that is present: one unit fewer, or no line at all. */
  function DecrementarLinea(m: map<string, Linea>, id: string, ahora: Instante): (r: map<string, Linea>)
    requires id in m
    ensures m[id].cantidad > 1 ==> r.Keys == m.Keys && r[id].cantidad == m[id].cantidad - 1
    ensures m[id].cantidad <= 1 ==> r.Keys == m.Keys - {id}
    ensures forall k :: k in m && k != id ==> k in r && r[k] == m[k]
    ensures CarritoValido(m) ==> CarritoValido(r)
  {
    if m[id].cantidad > 1 then m[id := m[id].(cantidad := m[id].cantidad - 1, fechaActualizacion := Some(ahora))]
    else m - {id}
  }

  /** Adding a product puts exactly one more unit in the cart, whether or not it was there. */
  lemma ContadorTrasAgregar(m: map<string, Linea>, p: Producto, ahora: Instante)
    ensures SumaMapa(AgregarLinea(m, p, ahora), Cantidad) == SumaMapa(m, Cantidad) + 1
  {
    var r := AgregarLinea(m, p, ahora);
    SumaMapaPoner(m, p.id, r[p.id], Cantidad);
    assert r == m[p.id := r[p.id]];
    if p.id in m {
      SumaMapaQuitar(m, p.id, Cantidad);
    } else {
      assert m - {p.id} == m;
    }
  }

  /** Incrementing puts exactly one more unit in the cart. */
  lemma ContadorTrasIncrementar(m: map<string, Linea>, id: string, ahora: Instante)
    requires id in m
    ensures SumaMapa(IncrementarLinea(m, id, ahora), Cantidad) == SumaMapa(m, Cantidad) + 1
  {
    var r := IncrementarLinea(m, id, ahora);
    SumaMapaPoner(m, id, r[id], Cantidad);
    SumaMapaQuitar(m, id, Cantidad);
  }

  /** Decrementing a valid cart takes out exactly one unit, also when it deletes the line. */
  lemma ContadorTrasDecrementar(m: map<string, Linea>, id: string, ahora: Instante)
    requires CarritoValido(m) && id in m
    ensures SumaMapa(DecrementarLinea(m, id, ahora), Cantidad) == SumaMapa(m, Cantidad) - 1
  {
    SumaMapaQuitar(m, id, Cantidad);
    if m[id].cantidad > 1 {
      var r := DecrementarLinea(m, id, ahora);
      SumaMapaPoner(m, id, r[id], Cantidad);
    }
  }

  /** Deleting a line takes out all of its units, and nothing when the line is absent. */
  lemma ContadorTrasEliminar(m: map<string, Linea>, id: string)
    ensures SumaMapa(m - {id}, Cantidad) == SumaMapa(m, Cantidad) - (if id in m then m[id].cantidad else 0)
  {
    if id in m {
      SumaMapaQuitar(m, id, Cantidad);
    } else {
      assert m - {id} == m;
    }
  }

  /** The walk-through of adding product A twice and decrementing it twice, on the store
      transitions: 1 unit worth 1000, 2 units worth 2000, 1 unit, empty. */
  lemma EscenarioAgregarYDecrementar(a: Producto, t: Instante)
    requires a.precio == 1000
    ensures var m1 := AgregarLinea(map[], a, t);
            && m1.Keys == {a.id} && m1[a.id].cantidad == 1
            && SumaMapa(m1, Cantidad) == 1 && SumaMapa(m1, Subtotal) == 1000
            && var m2 := AgregarLinea(m1, a, t);
            && m2.Keys == {a.id} && m2[a.id].cantidad == 2
            && SumaMapa(m2, Cantidad) == 2 && SumaMapa(m2, Subtotal) == 2000
            && var m3 := DecrementarLinea(m2, a.id, t);
            && m3[a.id].cantidad == 1
            && DecrementarLinea(m3, a.id, t) == map[]
            && SumaMapa(DecrementarLinea(m3, a.id, t), Subtotal) == 0
  {
    var m1 := AgregarLinea(map[], a, t);
    SumaMapaQuitar(m1, a.id, Cantidad);
    SumaMapaQuitar(m1, a.id, Subtotal);
    assert m1 - {a.id} == map[];
    var m2 := AgregarLinea(m1, a, t);
    SumaMapaQuitar(m2, a.id, Cantidad);
    SumaMapaQuitar(m2, a.id, Subtotal);
    assert m2 - {a.id} == map[];
    var m3 := DecrementarLinea(m2, a.id, t);
    assert DecrementarLinea(m3, a.id, t).Keys == {};
  }

  // ---------------------------------------------------------------------------------
  // Sync-log transitions

  function NuevaAccion(id: nat, tipo: TipoAccion, datos: Datos, ahora: Instante): AccionSync {
    AccionSync(id, tipo, datos, ahora, false, None)
  }

  /** What `registrarAccionSincronizacion` leaves behind: one fresh unsynced entry under the
      next generated key, or nothing at all when the add fails. */
  ghost predicate Anotada(antes: map<nat, AccionSync>, sigAntes: nat,
                          despues: map<nat, AccionSync>, sigDespues: nat,
                          tipo: TipoAccion, datos: Datos, ahora: Instante, fallo: bool)
  {
    if fallo then despues == antes && sigDespues == sigAntes
    else sigDespues == sigAntes + 1 && despues == antes[sigAntes := NuevaAccion(sigAntes, tipo, datos, ahora)]
  }

  /** An append uses a key no entry holds, keeps the log well formed, and adds exactly one
      pending entry. */
  lemma AnotadaEsFresca(antes: map<nat, AccionSync>, sigAntes: nat,
                        despues: map<nat, AccionSync>, sigDespues: nat,
                        tipo: TipoAccion, datos: Datos, ahora: Instante)
    requires RegistroValido(antes, sigAntes)
    requires Anotada(antes, sigAntes, despues, sigDespues, tipo, datos, ahora, false)
    ensures sigAntes !in antes && sigAntes in despues && !despues[sigAntes].sincronizado
    ensures RegistroValido(despues, sigDespues)
    ensures Pendientes(despues) == Pendientes(antes) + {sigAntes}
    ensures |Pendientes(despues)| == |Pendientes(antes)| + 1
  {
    assert Pendientes(despues) == Pendientes(antes) + {sigAntes};
  }

  /** An entry marked as synchronised at `ahora`. */
  function Marcada(a: AccionSync, ahora: Instante): AccionSync {
    a.(sincronizado := true, fechaSincronizacion := Some(ahora))
  }

  /** The log after the entries with keys in `ids` were each marked once. */
  function MarcarIds(log: map<nat, AccionSync>, ids: set<nat>, ahora: Instante): (r: map<nat, AccionSync>)
    ensures r.Keys == log.Keys
    ensures forall k :: k in log && k in ids ==> r[k].sincronizado && r[k].id == log[k].id
    ensures forall k :: k in log && k !in ids ==> r[k] == log[k]
  {
    map k | k in log :: if k in ids then Marcada(log[k], ahora) else log[k]
  }

  /** One step of the replay over a key-ordered listing: the next entry is not marked yet, and
      marking it extends the marked prefix by one. */
  lemma MarcarSiguiente(log: map<nat, AccionSync>, s: seq<AccionSync>, i: nat, ahora: Instante)
    requires i < |s|
    requires forall j :: 0 <= j < |s| ==> s[j].id in log
    requires forall a, b :: 0 <= a < b < |s| ==> s[a].id < s[b].id
    ensures MarcarIds(log, IdsDe(s[..i]), ahora)[s[i].id] == log[s[i].id]
    ensures MarcarIds(log, IdsDe(s[..i + 1]), ahora)
            == MarcarIds(log, IdsDe(s[..i]), ahora)[s[i].id := Marcada(log[s[i].id], ahora)]
  {
    var id := s[i].id;
    assert id !in IdsDe(s[..i]) by {
      forall j | 0 <= j < i ensures s[..i][j].id != id {
        assert s[..i][j] == s[j];
      }
    }
    assert s[..i + 1] == s[..i] + [s[i]];
    IdsDeAnexar(s[..i], s[i]);
    var a := MarcarIds(log, IdsDe(s[..i + 1]), ahora);
    var b := MarcarIds(log, IdsDe(s[..i]), ahora)[id := Marcada(log[id], ahora)];
    assert a.Keys == b.Keys;
    forall k | k in a ensures a[k] == b[k] { }
  }

  /** Marking every pending entry leaves nothing pending, touches no entry that was already
      synchronised, and keeps the log well formed. */
  lemma MarcarPendientesVacia(log: map<nat, AccionSync>, sig: nat, ahora: Instante)
    requires RegistroValido(log, sig)
    ensures var r := MarcarIds(log, Pendientes(log), ahora);
            && Pendientes(r) == {}
            && RegistroValido(r, sig)
            && (forall k :: k in log && log[k].sincronizado ==> r[k] == log[k])
  {
    var r := MarcarIds(log, Pendientes(log), ahora);
    forall k | k in r ensures r[k].sincronizado {
      if k in Pendientes(log) { } else { assert log[k].sincronizado; }
    }
  }

  /** `getAll()` on the sync store (ascending key order, keys below `n`), then
      `filter(accion => !accion.sincronizado)`. */
  function PendientesHasta(log: map<nat, AccionSync>, n: nat): (s: seq<AccionSync>)
    requires forall k :: k in log ==> log[k].id == k
    ensures forall i :: 0 <= i < |s| ==> s[i].id in log && log[s[i].id] == s[i] && !s[i].sincronizado && s[i].id < n
    ensures forall i, j :: 0 <= i < j < |s| ==> s[i].id < s[j].id
    decreases n
  {
    if n == 0 then []
    else
      var k := n - 1;
      if k in log && !log[k].sincronizado then PendientesHasta(log, k) + [log[k]]
      else PendientesHasta(log, k)
  }

  /** Raising the bound by one adds key `k` to the pending set exactly when `k` is pending. */
  lemma PendientesBajoPaso(log: map<nat, AccionSync>, k: nat)
    ensures k !in PendientesBajo(log, k)
    ensures k in log && !log[k].sincronizado ==> PendientesBajo(log, k + 1) == PendientesBajo(log, k) + {k}
    ensures !(k in log && !log[k].sincronizado) ==> PendientesBajo(log, k + 1) == PendientesBajo(log, k)
  {
  }

  /** The listing names each pending key below `n` exactly once. */
  lemma {:induction false} PendientesHastaCompleta(log: map<nat, AccionSync>, n: nat)
    requires forall k :: k in log ==> log[k].id == k
    ensures IdsDe(PendientesHasta(log, n)) == PendientesBajo(log, n)
    ensures |PendientesHasta(log, n)| == |PendientesBajo(log, n)|
    decreases n
  {
    if n == 0 {
      assert PendientesBajo(log, n) == {};
    } else {
      var k := n - 1;
      PendientesHastaCompleta(log, k);
      PendientesBajoPaso(log, k);
      if k in log && !log[k].sincronizado {
        IdsDeAnexar(PendientesHasta(log, k), log[k]);
      }
    }
  }

  // ---------------------------------------------------------------------------------
  // Catalogue store

  predicate ProductosUnicos(s: seq<Producto>) {
    forall i, j :: 0 <= i < j < |s| ==> s[i].id != s[j].id
  }

  ghost function IdsProductos(s: seq<Producto>): set<string> {
    set i | 0 <= i < |s| :: s[i].id
  }

  lemma IdsProductosAnexar(s: seq<Producto>, p: Producto)
    ensures IdsProductos(s + [p]) == IdsProductos(s) + {p.id}
  {
    var t := s + [p];
    forall x | x in IdsProductos(t) ensures x in IdsProductos(s) + {p.id} {
      var i :| 0 <= i < |t| && t[i].id == x;
      if i < |s| { assert s[i].id == x; }
    }
    forall x | x in IdsProductos(s) + {p.id} ensures x in IdsProductos(t) {
      if x == p.id { assert t[|s|].id == x; }
      else { var i :| 0 <= i < |s| && s[i].id == x; assert t[i].id == x; }
    }
  }

  /** The `productos` store after `clear()` and one `add` per product, all stamped `ahora`. */
  function Catalogo(lista: seq<Producto>, ahora: Instante): (r: map<string, ProductoGuardado>)
    ensures r.Keys == IdsProductos(lista)
    ensures forall k :: k in r ==> r[k].producto.id == k && r[k].fechaActualizacion == ahora
    decreases |lista|
  {
    if lista == [] then map[]
    else
      var n := |lista| - 1;
      assert lista == lista[..n] + [lista[n]];
      IdsProductosAnexar(lista[..n], lista[n]);
      Catalogo(lista[..n], ahora)[lista[n].id := ProductoGuardado(lista[n], ahora)]
  }

  /** An id already among the first `i` products makes the whole list fail the uniqueness test. */
  lemma IdRepetido(lista: seq<Producto>, i: nat)
    requires i < |lista| && lista[i].id in IdsProductos(lista[..i])
    ensures !ProductosUnicos(lista)
  {
    var j :| 0 <= j < i && lista[..i][j].id == lista[i].id;
    assert lista[j].id == lista[i].id;
  }

  /** One more `add` with a fresh id: the catalogue grows by that record and stays duplicate-free. */
  lemma CatalogoPaso(lista: seq<Producto>, i: nat, ahora: Instante)
    requires i < |lista| && ProductosUnicos(lista[..i]) && lista[i].id !in IdsProductos(lista[..i])
    ensures Catalogo(lista[..i + 1], ahora) == Catalogo(lista[..i], ahora)[lista[i].id := ProductoGuardado(lista[i], ahora)]
    ensures ProductosUnicos(lista[..i + 1])
  {
    var t := lista[..i + 1];
    assert t[..i] == lista[..i];
    assert t[i] == lista[i];
    forall a, b | 0 <= a < b < |t| ensures t[a].id != t[b].id {
      if b < i {
        assert t[a] == lista[..i][a] && t[b] == lista[..i][b];
      } else {
        assert t[a].id in IdsProductos(lista[..i]) by { assert lista[..i][a] == t[a]; }
      }
    }
  }

  /** With distinct ids the store holds exactly the given products, one record each. */
  lemma {:induction false} CatalogoExacto(lista: seq<Producto>, ahora: Instante)
    requires ProductosUnicos(lista)
    ensures |Catalogo(lista, ahora)| == |lista|
    ensures forall i :: 0 <= i < |lista| ==> Catalogo(lista, ahora)[lista[i].id].producto == lista[i]
    decreases |lista|
  {
    if lista != [] {
      var n := |lista| - 1;
      var init := lista[..n];
      var x := lista[n];
      assert lista == init + [x];
      assert ProductosUnicos(init) by {
        forall i, j | 0 <= i < j < |init| ensures init[i].id != init[j].id {
          assert init[i] == lista[i] && init[j] == lista[j];
        }
      }
      CatalogoExacto(init, ahora);
      var previo := Catalogo(init, ahora);
      assert x.id !in previo by {
        forall i | 0 <= i < n ensures init[i].id != x.id {
          assert init[i] == lista[i];
        }
      }
      var r := Catalogo(lista, ahora);
      assert r == previo[x.id := ProductoGuardado(x, ahora)];
      assert r.Keys == previo.Keys + {x.id};
      assert |r.Keys| == |previo.Keys| + 1;
      forall i | 0 <= i < |lista| ensures r[lista[i].id].producto == lista[i] {
        if i < n {
          assert init[i] == lista[i];
          assert lista[i].id != x.id;
        }
      }
    }
  }

  // ---------------------------------------------------------------------------------
  // The manager

  class DBManager {
    var version: nat
    var esquema: map<Almacen, DefStore>
    var productos: map<string, ProductoGuardado>
    var carrito: map<string, Linea>
    var config: map<string, EntradaConfig>
    var sincronizacion: map<nat, AccionSync>
    /** The key generator of `sincronizacion`; `clear()` does not reset it. */
    var siguienteId: nat
    var compras: map<string, Compra>
    var isOnline: bool

    ghost predicate Valid()
      reads this
    {
      && CarritoValido(carrito)
      && RegistroValido(sincronizacion, siguienteId)
      && (forall k :: k in productos ==> productos[k].producto.id == k)
      && (forall k :: k in config ==> config[k].key == k)
      && (forall k :: k in compras ==> compras[k].id == k)
    }

    /** `new DBManager()`: no database opened yet; `navigator.onLine` is passed in. The empty
        stores are those of a first visit: the browser keeps the database across visits, and
        a returning visitor's stores hold whatever the last visit left. */
    constructor (online: bool)
      ensures Valid()
      ensures version == 0 && esquema == map[]
      ensures productos == map[] && carrito == map[] && config == map[] && sincronizacion == map[] && compras == map[]
      ensures siguienteId == 1 && isOnline == online
    {
      version, esquema := 0, map[];
      productos, carrito, config, sincronizacion, compras := map[], map[], map[], map[], map[];
      siguienteId := 1;
      isOnline := online;
    }

    /** `init()`: opening an older (or new) database runs the upgrade step. */
    method Init()
      modifies this`version, this`esquema
      ensures version == if old(version) < DB_VERSION then DB_VERSION else old(version)
      ensures esquema == if old(version) < DB_VERSION then EsquemaCompleto(old(esquema)) else old(esquema)
    {
      if version < DB_VERSION {
        CreateStores();
        version := DB_VERSION;
      }
    }

    /** One guarded `createObjectStore`: the store is created with its declaration only if
        no store of that name exists. */
    method CrearStore(nombre: Almacen, ghost e0: map<Almacen, DefStore>, ghost hechos: set<Almacen>)
      requires Avance(e0, esquema, hechos)
      modifies this`esquema
      ensures esquema == if nombre in old(esquema) then old(esquema) else old(esquema)[nombre := Definicion(nombre)]
      ensures Avance(e0, esquema, hechos + {nombre})
    {
      if nombre !in esquema {
        esquema := esquema[nombre := Definicion(nombre)];
      }
    }

    /** `createStores()`: creates each of the five stores only if it is missing. */
    method CreateStores()
      modifies this`esquema
      ensures esquema == EsquemaCompleto(old(esquema))
    {
      ghost var e0 := esquema;
      CrearStore(Productos, e0, {});
      CrearStore(CarritoStore, e0, {} + {Productos});
      CrearStore(Config, e0, {} + {Productos} + {CarritoStore});
      CrearStore(Sincronizacion, e0, {} + {Productos} + {CarritoStore} + {Config});
      CrearStore(Compras, e0, {} + {Productos} + {CarritoStore} + {Config} + {Sincronizacion});
      CincoStores();
      AvanceCompleto(e0, esquema);
    }

    // -- products

    /** `guardarProductos`: clear the store, then add each product. A repeated id makes its
        `add` fail, which aborts the transaction and leaves the store as it was. */
    method GuardarProductos(lista: seq<Producto>, ahora: Instante) returns (ok: bool)
      requires Valid()
      modifies this`productos
      ensures Valid()
      ensures ok == ProductosUnicos(lista)
      ensures ok ==> productos == Catalogo(lista, ahora)
      ensures ok ==> |productos| == |lista| && forall i :: 0 <= i < |lista| ==> productos[lista[i].id].producto == lista[i]
      ensures !ok ==> productos == old(productos)
    {
      // The transaction's view of the store: cleared, then filled; committed only at the end.
      var vista: map<string, ProductoGuardado> := map[];
      for i := 0 to |lista|
        invariant vista == Catalogo(lista[..i], ahora)
        invariant ProductosUnicos(lista[..i])
        invariant productos == old(productos)
      {
        if lista[i].id in vista {
          IdRepetido(lista, i);
          return false;
        }
        CatalogoPaso(lista, i, ahora);
        vista := vista[lista[i].id := ProductoGuardado(lista[i], ahora)];
      }
      assert lista[..|lista|] == lista;
      CatalogoExacto(lista, ahora);
      productos := vista;
      return true;
    }

    /** `obtenerProductos`: every stored product once, in the order the engine lists them. */
    method ObtenerProductos() returns (s: seq<ProductoGuardado>)
      requires Valid()
      ensures ListaCatalogo(s, productos)
    {
      var m := productos;
      var ks := ClavesDe(m);
      s := seq(|ks|, i requires 0 <= i < |ks| && ks[i] in m => m[ks[i]]);
      forall i, j | 0 <= i < j < |s| ensures s[i].producto.id != s[j].producto.id {
        assert s[i].producto.id == ks[i] && s[j].producto.id == ks[j];
      }
    }

    /** `obtenerProductoPorId`. */
    function ObtenerProductoPorId(id: string): (r: Option<ProductoGuardado>)
      reads this
      requires Valid()
      ensures r.Some? <==> id in productos
      ensures r.Some? ==> r.value.producto.id == id
    {
      if id in productos then Some(productos[id]) else None
    }

    // -- cart

    /** `obtenerCarrito`: every line once, in the order the engine lists them. */
    method ObtenerCarrito() returns (s: seq<Linea>)
      requires Valid()
      ensures Enumera(s, carrito)
    {
      var m := carrito;
      var ks := ClavesDe(m);
      s := seq(|ks|, i requires 0 <= i < |ks| && ks[i] in m => m[ks[i]]);
      forall i, j | 0 <= i < j < |s| ensures s[i].Id() != s[j].Id() {
        assert s[i].Id() == ks[i] && s[j].Id() == ks[j];
      }
    }

    /** `obtenerProductoCarrito`: the stored line for `id`, if any. */
    function ObtenerProductoCarrito(id: string): (r: Option<Linea>)
      reads this
      requires Valid()
      ensures r.Some? <==> id in carrito
      ensures r.Some? ==> r.value.Id() == id && r.value.cantidad >= 1
    {
      if id in carrito then Some(carrito[id]) else None
    }

    /** `agregarAlCarrito`: add-or-increment, then log the intent. A failed log append does
        not undo or fail the cart change. */
    method AgregarAlCarrito(p: Producto, ahora: Instante, falloRegistro: bool) returns (r: Resultado)
      requires Valid()
      modifies this`carrito, this`sincronizacion, this`siguienteId
      ensures Valid() && r == Ok
      ensures carrito == AgregarLinea(old(carrito), p, ahora)
      ensures Anotada(old(sincronizacion), old(siguienteId), sincronizacion, siguienteId,
                      CarritoActualizado, DatosProducto(p.id, Agregar, ahora), ahora, falloRegistro)
    {
      var existente := ObtenerProductoCarrito(p.id);
      match existente {
        case Some(l) =>
          carrito := carrito[p.id := l.(cantidad := l.cantidad + 1, fechaActualizacion := Some(ahora))];
        case None =>
          carrito := carrito[p.id := Linea(p, 1, Some(ahora), Some(ahora))];
      }
      var _ := RegistrarAccionSincronizacion(CarritoActualizado, DatosProducto(p.id, Agregar, ahora), ahora, falloRegistro);
      r := Ok;
    }

    /** `eliminarDelCarrito`: deletes the key (absent is fine) and logs the intent. */
    method EliminarDelCarrito(id: string, ahora: Instante, falloRegistro: bool) returns (r: Resultado)
      requires Valid()
      modifies this`carrito, this`sincronizacion, this`siguienteId
      ensures Valid() && r == Ok
      ensures carrito == old(carrito) - {id}
      ensures Anotada(old(sincronizacion), old(siguienteId), sincronizacion, siguienteId,
                      CarritoActualizado, DatosProducto(id, Eliminar, ahora), ahora, falloRegistro)
    {
      carrito := carrito - {id};
      var _ := RegistrarAccionSincronizacion(CarritoActualizado, DatosProducto(id, Eliminar, ahora), ahora, falloRegistro);
      r := Ok;
    }

    /** `vaciarCarrito`: empties the cart store only, and logs one `carrito_vaciado` entry. */
    method VaciarCarrito(ahora: Instante, falloRegistro: bool) returns (r: Resultado)
      requires Valid()
      modifies this`carrito, this`sincronizacion, this`siguienteId
      ensures Valid() && r == Ok
      ensures carrito == map[]
      ensures Anotada(old(sincronizacion), old(siguienteId), sincronizacion, siguienteId,
                      CarritoVaciado, DatosVaciado(ahora), ahora, falloRegistro)
    {
      carrito := map[];
      var _ := RegistrarAccionSincronizacion(CarritoVaciado, DatosVaciado(ahora), ahora, falloRegistro);
      r := Ok;
    }

    /** `obtenerContadorCarrito`: the number of units in the cart. */
    method ObtenerContadorCarrito() returns (n: int)
      requires Valid()
      ensures n == SumaMapa(carrito, Cantidad)
      ensures n >= |carrito|
      ensures n == 0 <==> carrito == map[]
    {
      var lineas := ObtenerCarrito();
      n := Suma(lineas, Cantidad);
      SumaEnumeracion(lineas, carrito, Cantidad);
      SumaMapaCotaInferior(carrito, Cantidad);
      if n == 0 {
        assert carrito.Keys == {};
      }
    }

    /** `incrementarCantidad`: one more unit of a present line; no log entry. */
    method IncrementarCantidad(id: string, ahora: Instante) returns (r: Resultado)
      requires Valid()
      modifies this`carrito
      ensures Valid()
      ensures r == if id in old(carrito) then Ok else Err(NoEncontrado)
      ensures carrito == if id in old(carrito) then IncrementarLinea(old(carrito), id, ahora) else old(carrito)
    {
      var producto := ObtenerProductoCarrito(id);
      if producto.Some? {
        carrito := carrito[id := producto.value.(cantidad := producto.value.cantidad + 1,
                                                 fechaActualizacion := Some(ahora))];
        r := Ok;
      } else {
        r := Err(NoEncontrado);
      }
    }

    /** `decrementarCantidad`: one unit fewer, or the whole line removed (and logged, through
        `eliminarDelCarrito`) when it held one unit. */
    method DecrementarCantidad(id: string, ahora: Instante, falloRegistro: bool) returns (r: Resultado)
      requires Valid()
      modifies this`carrito, this`sincronizacion, this`siguienteId
      ensures Valid()
      ensures r == if id in old(carrito) then Ok else Err(NoEncontrado)
      ensures carrito == if id in old(carrito) then DecrementarLinea(old(carrito), id, ahora) else old(carrito)
      ensures id in old(carrito) && old(carrito)[id].cantidad == 1 ==>
                Anotada(old(sincronizacion), old(siguienteId), sincronizacion, siguienteId,
                        CarritoActualizado, DatosProducto(id, Eliminar, ahora), ahora, falloRegistro)
      ensures !(id in old(carrito) && old(carrito)[id].cantidad == 1) ==>
                sincronizacion == old(sincronizacion) && siguienteId == old(siguienteId)
    {
      var producto := ObtenerProductoCarrito(id);
      if producto.Some? {
        if producto.value.cantidad > 1 {
          carrito := carrito[id := producto.value.(cantidad := producto.value.cantidad - 1,
                                                   fechaActualizacion := Some(ahora))];
        } else {
          var _ := EliminarDelCarrito(id, ahora, falloRegistro);
        }
        r := Ok;
      } else {
        r := Err(NoEncontrado);
      }
    }

    // -- purchases and settings

    /** `registrarCompra`: `add` of the record; an id already used rejects. */
    method RegistrarCompra(compra: Compra) returns (r: Resultado)
      requires Valid()
      modifies this`compras
      ensures Valid()
      ensures r == if compra.id in old(compras) then Err(ClaveDuplicada) else Ok
      ensures compras == if compra.id in old(compras) then old(compras) else old(compras)[compra.id := compra]
    {
      if compra.id in compras {
        r := Err(ClaveDuplicada);
      } else {
        compras := compras[compra.id := compra];
        r := Ok;
      }
    }

    /** `guardarConfiguracion`: last write wins. */
    method GuardarConfiguracion(key: string, value: string, ahora: Instante) returns (r: Resultado)
      requires Valid()
      modifies this`config
      ensures Valid() && r == Ok
      ensures config == old(config)[key := EntradaConfig(key, value, ahora)]
      ensures forall d :: ObtenerConfiguracion(key, d) == value
      ensures forall k, d :: k != key ==> ObtenerConfiguracion(k, d) == old(ObtenerConfiguracion(k, d))
    {
      config := config[key := EntradaConfig(key, value, ahora)];
      r := Ok;
    }

    /** `obtenerConfiguracion(key, defaultValue)`. */
    function ObtenerConfiguracion(key: string, defecto: string): (v: string)
      reads this
      ensures key in config ==> v == config[key].value
      ensures key !in config ==> v == defecto
    {
      if key in config then config[key].value else defecto
    }

    // -- sync log

    /** `registrarAccionSincronizacion`: resolves `false` instead of rejecting when the add fails. */
    method RegistrarAccionSincronizacion(tipo: TipoAccion, datos: Datos, ahora: Instante, fallo: bool)
      returns (ok: bool)
      requires Valid()
      modifies this`sincronizacion, this`siguienteId
      ensures Valid()
      ensures ok == !fallo
      ensures Anotada(old(sincronizacion), old(siguienteId), sincronizacion, siguienteId, tipo, datos, ahora, fallo)
    {
      if fallo {
        return false;
      }
      sincronizacion := sincronizacion[siguienteId := NuevaAccion(siguienteId, tipo, datos, ahora)];
      siguienteId := siguienteId + 1;
      return true;
    }

    /** `obtenerAccionesPendientes`: exactly the unsynced entries, in key order. */
    function ObtenerAccionesPendientes(): (s: seq<AccionSync>)
      reads this
      requires Valid()
      ensures forall i :: 0 <= i < |s| ==> s[i].id in sincronizacion && sincronizacion[s[i].id] == s[i] && !s[i].sincronizado
      ensures forall i, j :: 0 <= i < j < |s| ==> s[i].id < s[j].id
      ensures IdsDe(s) == Pendientes(sincronizacion)
      ensures |s| == |Pendientes(sincronizacion)|
    {
      assert PendientesBajo(sincronizacion, siguienteId) == Pendientes(sincronizacion);
      PendientesHastaCompleta(sincronizacion, siguienteId);
      PendientesHasta(sincronizacion, siguienteId)
    }

    /** `marcarComoSincronizado`: `false` and no change for an unknown id. */
    method MarcarComoSincronizado(id: nat, ahora: Instante) returns (ok: bool)
      requires Valid()
      modifies this`sincronizacion
      ensures Valid()
      ensures ok == (id in old(sincronizacion))
      ensures sincronizacion == if ok then old(sincronizacion)[id := Marcada(old(sincronizacion)[id], ahora)]
                                else old(sincronizacion)
    {
      if id in sincronizacion {
        sincronizacion := sincronizacion[id := Marcada(sincronizacion[id], ahora)];
        return true;
      }
      return false;
    }

    /** `syncOfflineData`: offline, nothing; online, every entry pending at the start is marked. */
    method SyncOfflineData(ahora: Instante)
      requires Valid()
      modifies this`sincronizacion
      ensures Valid()
      ensures !isOnline ==> sincronizacion == old(sincronizacion)
      ensures isOnline ==> sincronizacion == MarcarIds(old(sincronizacion), Pendientes(old(sincronizacion)), ahora)
    {
      if !isOnline {
        return;
      }
      var pendientes := ObtenerAccionesPendientes();
      ghost var log0 := sincronizacion;
      for i := 0 to |pendientes|
        invariant Valid()
        invariant sincronizacion == MarcarIds(log0, IdsDe(pendientes[..i]), ahora)
      {
        var id := pendientes[i].id;
        MarcarSiguiente(log0, pendientes, i, ahora);
        var _ := MarcarComoSincronizado(id, ahora);
      }
      assert pendientes[..|pendientes|] == pendientes;
    }

    /** The `online` event: set the flag, then replay the log. */
    method AlConectar(ahora: Instante)
      requires Valid()
      modifies this`isOnline, this`sincronizacion
      ensures Valid() && isOnline
      ensures sincronizacion == MarcarIds(old(sincronizacion), Pendientes(old(sincronizacion)), ahora)
      ensures Pendientes(sincronizacion) == {}
      ensures sincronizacion.Keys == old(sincronizacion).Keys
    {
      isOnline := true;
      MarcarPendientesVacia(sincronizacion, siguienteId, ahora);
      SyncOfflineData(ahora);
    }

    /** The `offline` event. */
    method AlDesconectar()
      modifies this`isOnline
      ensures !isOnline
    {
      isOnline := false;
    }

    // -- utilities

    /** `limpiarBaseDatos`: clears all five stores in one transaction; the key generator and
        the schema stay. */
    method LimpiarBaseDatos() returns (r: Resultado)
      requires Valid()
      modifies this`productos, this`carrito, this`config, this`sincronizacion, this`compras
      ensures Valid() && r == Ok
      ensures productos == map[] && carrito == map[] && config == map[] && sincronizacion == map[] && compras == map[]
    {
      productos, carrito, config, sincronizacion, compras := map[], map[], map[], map[], map[];
      r := Ok;
    }

    /** `obtenerEstadisticas`. */
    method ObtenerEstadisticas() returns (e: Estadisticas)
      requires Valid()
      ensures e.totalProductos == |productos|
      ensures e.productosEnCarrito == |carrito|
      ensures e.valorTotalCarrito == SumaMapa(carrito, Subtotal)
      ensures e.accionesPendientesSincronizacion == |Pendientes(sincronizacion)|
      ensures e.ultimaActualizacion.None? <==> productos == map[]
      ensures e.ultimaActualizacion.Some? ==>
                exists k :: k in productos && productos[k].fechaActualizacion == e.ultimaActualizacion.value
    {
      var ps := ObtenerProductos();
      var lineas := ObtenerCarrito();
      var acciones := ObtenerAccionesPendientes();
      SumaEnumeracion(lineas, carrito, Subtotal);
      var ultima: Option<Instante> := None;
      if |ps| > 0 {
        ultima := Some(ps[0].fechaActualizacion);
        var k :| k in productos && productos[k] == ps[0];
      } else {
        assert productos.Keys == {};
      }
      e := Estadisticas(|ps|, |lineas|, Suma(lineas, Subtotal), |acciones|, ultima);
    }
  }
}
