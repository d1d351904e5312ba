/** The service worker: which strategy serves a request, the two strategies over the
    browser's cache storage, the activation clean-up, and the message and sync dispatch.
    A request is reduced to its mode, its full URL and its host name; the network is a
    parameter that either answers with a response or fails. */
module ServiceWorker {
  import opened Comun

  const CACHE_NAME := "nkd-pereira-v1.0.0"
  const STATIC_CACHE := "nkd-static-v1.0.0"
  const DYNAMIC_CACHE := "nkd-dynamic-v1.0.0"

  const STATIC_ASSETS: seq<string> := [
    "/",
    "/index.html",
    "/carrito.html",
    "/css/main.css",
    "/js/main.js",
    "/js/carrito.js",
    "/js/menu.js",
    "/js/productos.json",
    "/js/db.js",
    "/js/pwa.js",
    "/manifest.json",
    "/img/logo/logo.png",
    "https://cdn.jsdelivr.net/npm/bootstrap-icons@1.9.1/font/bootstrap-icons.css",
    "https://cdn.jsdelivr.net/npm/toastify-js/src/toastify.min.css",
    "https://cdn.jsdelivr.net/npm/toastify-js",
    "https://cdn.jsdelivr.net/npm/sweetalert2@11"
  ]

  const NAVEGAR := "navigate"
  const OFFLINE_URL := "/offline.html"

  // ---------------------------------------------------------------------------------
  // Requests, responses, the network

  datatype Peticion = Peticion(modo: string, url: string, hostname: string)

  /** A body is either text the worker writes itself, its built-in offline page, or
      whatever a server sent. */
  datatype Cuerpo = Texto(texto: string) | PaginaSinConexion | DelServidor(contenido: string)

  datatype Respuesta = Respuesta(status: int, cuerpo: Cuerpo) {
    /** `response.ok`. */
    predicate Ok() { 200 <= status <= 299 }
  }

  /** What `fetch(request)` does this time: resolve with a response or throw. */
  datatype Red = Responde(respuesta: Respuesta) | Falla

  const RECURSO_NO_DISPONIBLE := Respuesta(503, Texto("Recurso no disponible offline"))
  const APLICACION_OFFLINE := Respuesta(200, Texto("Aplicación offline"))
  const PAGINA_OFFLINE := Respuesta(200, PaginaSinConexion)

  // ---------------------------------------------------------------------------------
  // Substrings

  predicate EmpiezaCon(s: string, pre: string) {
    |pre| <= |s| && s[..|pre|] == pre
  }

  /** `s.includes(sub)`. */
  predicate Incluye(s: string, sub: string)
    decreases |s|
  {
    EmpiezaCon(s, sub) || (s != [] && Incluye(s[1..], sub))
  }

  /** `sub` occurs in `s` starting at position `i`. */
  predicate OcurreEn(s: string, sub: string, i: int) {
    0 <= i <= |s| - |sub| && s[i..i + |sub|] == sub
  }

  /** `includes` holds exactly when `sub` occurs at some position of `s`. */
  lemma {:induction false} IncluyeSiOcurre(s: string, sub: string)
    ensures Incluye(s, sub) <==> exists i :: OcurreEn(s, sub, i)
    decreases |s|
  {
    if EmpiezaCon(s, sub) {
      assert OcurreEn(s, sub, 0);
    }
    if s != [] {
      IncluyeSiOcurre(s[1..], sub);
      if Incluye(s[1..], sub) {
        var i :| OcurreEn(s[1..], sub, i);
        assert s[1..][i..i + |sub|] == s[i + 1..i + 1 + |sub|];
        assert OcurreEn(s, sub, i + 1);
      }
    }
    if exists i :: OcurreEn(s, sub, i) {
      var i :| OcurreEn(s, sub, i);
      if i > 0 {
        assert s[1..][i - 1..i - 1 + |sub|] == s[i..i + |sub|];
        assert OcurreEn(s[1..], sub, i - 1);
        IncluyeSiOcurre(s[1..], sub);
      } else {
        assert EmpiezaCon(s, sub);
      }
    }
  }

  // ---------------------------------------------------------------------------------
  // Routing

  datatype Estrategia = CacheFirst | NetworkFirst

  /** Static assets, stylesheets, scripts, images and the two CDNs. */
  predicate EsRecursoEstatico(req: Peticion) {
    || req.url in STATIC_ASSETS
    || Incluye(req.url, "/css/") || Incluye(req.url, "/js/")
    || Incluye(req.url, "/img/")
    || Incluye(req.hostname, "cdn.jsdelivr.net") || Incluye(req.hostname, "cdnjs.cloudflare.com")
  }

  /** The `fetch` handler's `if` chain. */
  function Enrutar(req: Peticion): (e: Estrategia)
    ensures req.modo == NAVEGAR ==> e == NetworkFirst
    ensures req.modo != NAVEGAR ==> (e == CacheFirst <==> EsRecursoEstatico(req))
  {
    if req.modo == NAVEGAR then NetworkFirst
    else if req.url in STATIC_ASSETS || Incluye(req.url, "/css/") || Incluye(req.url, "/js/") then CacheFirst
    else if Incluye(req.url, "/img/") then CacheFirst
    else if Incluye(req.hostname, "cdn.jsdelivr.net") || Incluye(req.hostname, "cdnjs.cloudflare.com") then CacheFirst
    else NetworkFirst
  }

  /** The list is compared with the request's full URL, and its first twelve entries are
      root-relative paths: a URL that does not start with `/` can only match one of the last
      four entries, the CDN ones. */
  lemma SoloCdnSinBarra(url: string)
    requires |url| > 0 && url[0] != '/'
    ensures url in STATIC_ASSETS ==> url in STATIC_ASSETS[12..]
  {
    assert forall i | 0 <= i < 12 :: STATIC_ASSETS[i][0] == '/';
    if url in STATIC_ASSETS {
      var i :| 0 <= i < |STATIC_ASSETS| && STATIC_ASSETS[i] == url;
      assert i >= 12;
      assert url == STATIC_ASSETS[12..][i - 12];
    }
  }

  /** So the site's own manifest is listed, but not under its absolute URL. */
  lemma ManifiestoAbsolutoNoListado()
    ensures "/manifest.json" in STATIC_ASSETS
    ensures "https://nkd.co/manifest.json" !in STATIC_ASSETS
  {
    assert STATIC_ASSETS[10] == "/manifest.json";
    SoloCdnSinBarra("https://nkd.co/manifest.json");
  }

  // ---------------------------------------------------------------------------------
  // What each strategy answers, given the cache contents it looks at

  /** `cacheFirstStrategy`'s answer, given the static cache and what `caches.match('/offline.html')`
      would find. */
  function ServirCacheFirst(estatica: map<string, Respuesta>, req: Peticion, red: Red,
                            offline: Option<Respuesta>): (r: Respuesta)
    ensures req.url in estatica ==> r == estatica[req.url]
    ensures req.url !in estatica && red.Responde? ==> r == red.respuesta
    ensures req.url !in estatica && red.Falla? && req.modo != NAVEGAR ==> r.status == 503
    ensures req.url !in estatica && red.Falla? && req.modo == NAVEGAR ==>
              r == offline.GetOr(APLICACION_OFFLINE) && (offline.None? ==> r.status == 200)
  {
    if req.url in estatica then estatica[req.url]
    else match red
      case Responde(resp) => resp
      case Falla => if req.modo == NAVEGAR then offline.GetOr(APLICACION_OFFLINE) else RECURSO_NO_DISPONIBLE
  }

  /** `networkFirstStrategy`'s answer, given the dynamic and the static cache and what
      `caches.match('/offline.html')` would find. */
  function ServirNetworkFirst(dinamica: map<string, Respuesta>, estatica: map<string, Respuesta>,
                              req: Peticion, red: Red, offline: Option<Respuesta>): (r: Respuesta)
    ensures red.Responde? ==> r == red.respuesta
    ensures red.Falla? && req.url in dinamica ==> r == dinamica[req.url]
    ensures red.Falla? && req.url !in dinamica && req.url in estatica ==> r == estatica[req.url]
    ensures red.Falla? && req.url !in dinamica && req.url !in estatica ==>
              (if req.modo == NAVEGAR then r == offline.GetOr(PAGINA_OFFLINE) else r.status == 503)
  {
    match red
    case Responde(resp) => resp
    case Falla =>
      if req.url in dinamica then dinamica[req.url]
      else if req.url in estatica then estatica[req.url]
      else if req.modo == NAVEGAR then offline.GetOr(PAGINA_OFFLINE)
      else RECURSO_NO_DISPONIBLE
  }

  /** The `fetch` handler's answer. */
  function Servir(dinamica: map<string, Respuesta>, estatica: map<string, Respuesta>,
                  req: Peticion, red: Red, offline: Option<Respuesta>): Respuesta
  {
    if Enrutar(req) == CacheFirst then ServirCacheFirst(estatica, req, red, offline)
    else ServirNetworkFirst(dinamica, estatica, req, red, offline)
  }

  /** A static resource already in the static cache is served from it, whatever the network does. */
  lemma EstaticoCacheadoSinRed(dinamica: map<string, Respuesta>, estatica: map<string, Respuesta>,
                               req: Peticion, red: Red, offline: Option<Respuesta>)
    requires req.modo != NAVEGAR && EsRecursoEstatico(req) && req.url in estatica
    ensures Servir(dinamica, estatica, req, red, offline) == estatica[req.url]
  {
  }

  /** Without a network, a page navigation is answered from a cache or with a page of status
      200; only other requests can get the worker's own 503. */
  lemma NavegacionSinRed(dinamica: map<string, Respuesta>, estatica: map<string, Respuesta>,
                         req: Peticion, offline: Option<Respuesta>)
    requires req.modo == NAVEGAR
    ensures var r := Servir(dinamica, estatica, req, Falla, offline);
            || (req.url in dinamica && r == dinamica[req.url])
            || (req.url !in dinamica && req.url in estatica && r == estatica[req.url])
            || (offline.Some? && r == offline.value)
            || r == PAGINA_OFFLINE
  {
  }

  /** `cache.put` when the response is `ok`. */
  function GuardarSiOk(c: map<string, Respuesta>, url: string, red: Red): (r: map<string, Respuesta>)
    ensures red.Responde? && red.respuesta.Ok() ==> url in r && r[url] == red.respuesta && r - {url} == c - {url}
    ensures !(red.Responde? && red.respuesta.Ok()) ==> r == c
  {
    if red.Responde? && red.respuesta.Ok() then c[url := red.respuesta] else c
  }

  // ---------------------------------------------------------------------------------
  // Cache names

  predicate Distintos(ns: seq<string>) {
    forall i, j :: 0 <= i < j < |ns| ==> ns[i] != ns[j]
  }

  /** The list without `n`: what `caches.delete(n)` leaves of `caches.keys()`. */
  function Quitar(ns: seq<string>, n: string): (r: seq<string>)
    ensures forall x :: x in r <==> x in ns && x != n
    decreases |ns|
  {
    if ns == [] then []
    else
      var k := |ns| - 1;
      Quitar(ns[..k], n) + (if ns[k] != n then [ns[k]] else [])
  }

  /** The names activation keeps. */
  predicate Conservar(n: string) {
    n == STATIC_CACHE || n == DYNAMIC_CACHE
  }

  /** The previous version's cache is not one activation keeps. */
  lemma CacheAnteriorNoSeConserva()
    ensures !Conservar(CACHE_NAME)
  {
    assert CACHE_NAME[4] != STATIC_CACHE[4];
    assert CACHE_NAME[4] != DYNAMIC_CACHE[4];
  }

  /** The names after `caches.open(n)`: `n` is appended when it is new, and the names
      already there keep their order. */
  function Anexar(ns: seq<string>, n: string): (r: seq<string>)
    ensures ns <= r
    ensures forall x :: x in r <==> x in ns || x == n
    ensures Distintos(ns) ==> Distintos(r)
  {
    if n in ns then ns else ns + [n]
  }

  /** The names after `networkFirstStrategy`: an ok response opens the dynamic cache; a
      failed fetch opens the dynamic cache and, when that misses, the static one. */
  function NombresTrasNetworkFirst(ns: seq<string>, dinamica: map<string, Respuesta>,
                                   url: string, red: Red): (r: seq<string>)
    ensures ns <= r
    ensures forall x :: x in r ==> x in ns || x == DYNAMIC_CACHE || x == STATIC_CACHE
  {
    match red
    case Responde(resp) => if resp.Ok() then Anexar(ns, DYNAMIC_CACHE) else ns
    case Falla =>
      if url in dinamica then Anexar(ns, DYNAMIC_CACHE)
      else Anexar(Anexar(ns, DYNAMIC_CACHE), STATIC_CACHE)
  }

  /** `cacheNames` filtered by the activation test, in order. */
  function Conservadas(ns: seq<string>): (r: seq<string>)
    ensures forall x :: x in r <==> x in ns && Conservar(x)
    ensures |r| <= |ns|
    decreases |ns|
  {
    if ns == [] then []
    else
      var k := |ns| - 1;
      Conservadas(ns[..k]) + (if Conservar(ns[k]) then [ns[k]] else [])
  }

  lemma {:induction false} QuitarDistintos(ns: seq<string>, n: string)
    requires Distintos(ns)
    ensures Distintos(Quitar(ns, n))
    decreases |ns|
  {
    if ns != [] {
      var k := |ns| - 1;
      QuitarDistintos(ns[..k], n);
      assert ns[k] !in ns[..k];
    }
  }

  lemma {:induction false} QuitarAusente(ns: seq<string>, n: string)
    requires n !in ns
    ensures Quitar(ns, n) == ns
    decreases |ns|
  {
    if ns != [] {
      var k := |ns| - 1;
      assert ns[k] != n;
      assert n !in ns[..k];
      QuitarAusente(ns[..k], n);
      assert ns == ns[..k] + [ns[k]];
    }
  }

  /** In a list without repeats, a name does not occur after its own position. */
  lemma DistintoDelResto(ks: seq<string>, i: nat)
    requires Distintos(ks) && i < |ks|
    ensures ks[i] !in ks[i + 1..]
  {
    var resto := ks[i + 1..];
    forall j | 0 <= j < |resto| ensures resto[j] != ks[i] {
      assert resto[j] == ks[i + 1 + j];
    }
  }

  /** Deleting the head name from a list where it occurs only there leaves the rest. */
  lemma QuitarCabeza(n: string, resto: seq<string>)
    requires n !in resto
    ensures Quitar([n] + resto, n) == resto
  {
    QuitarConcat([n], resto, n);
    QuitarAusente(resto, n);
    assert [n][..0] == [];
  }

  /** One step of the activation loop on a name it deletes. */
  lemma PasoBorrado(ks: seq<string>, i: nat)
    requires Distintos(ks) && i < |ks| && !Conservar(ks[i])
    ensures Quitar(Conservadas(ks[..i]) + ks[i..], ks[i]) == Conservadas(ks[..i + 1]) + ks[i + 1..]
  {
    var c := Conservadas(ks[..i]);
    var n := ks[i];
    assert ks[..i + 1] == ks[..i] + [n];
    assert Conservadas(ks[..i + 1]) == c;
    assert ks[i..] == [n] + ks[i + 1..];
    QuitarConcat(c, ks[i..], n);
    QuitarAusente(c, n);
    DistintoDelResto(ks, i);
    QuitarCabeza(n, ks[i + 1..]);
  }

  /** One step of the activation loop on a name it keeps. */
  lemma PasoConservado(ks: seq<string>, i: nat)
    requires i < |ks| && Conservar(ks[i])
    ensures Conservadas(ks[..i]) + ks[i..] == Conservadas(ks[..i + 1]) + ks[i + 1..]
  {
    assert ks[..i + 1] == ks[..i] + [ks[i]];
    assert ks[i..] == [ks[i]] + ks[i + 1..];
  }

  lemma {:induction false} QuitarConcat(a: seq<string>, b: seq<string>, n: string)
    ensures Quitar(a + b, n) == Quitar(a, n) + Quitar(b, n)
    decreases |b|
  {
    if b == [] {
      assert a + b == a;
    } else {
      var k := |b| - 1;
      assert (a + b)[..|a + b| - 1] == a + b[..k];
      QuitarConcat(a, b[..k], n);
    }
  }

  // ---------------------------------------------------------------------------------
  // Cache storage

  /** `caches`: named caches in creation order, each a map from request URL to response. */
  class CacheStorage {
    var nombres: seq<string>
    var contenido: map<string, map<string, Respuesta>>

    ghost predicate Valid()
      reads this
    {
      Distintos(nombres) && forall n :: n in contenido <==> n in nombres
    }

    constructor ()
      ensures Valid() && nombres == [] && contenido == map[]
    {
      nombres := [];
      contenido := map[];
    }

    /** The contents of cache `n`; a cache that does not exist holds nothing. */
    function Cache(n: string): map<string, Respuesta>
      reads this
    {
      if n in contenido then contenido[n] else map[]
    }

    /** `caches.match(url)`: the first cache, in creation order, that holds `url`. */
    function Coincidir(url: string): (r: Option<Respuesta>)
      reads this
      ensures r.Some? <==> exists i :: 0 <= i < |nombres| && url in Cache(nombres[i])
      ensures r.Some? ==> exists i :: 0 <= i < |nombres| && url in Cache(nombres[i]) && r.value == Cache(nombres[i])[url]
                                      && forall j :: 0 <= j < i ==> url !in Cache(nombres[j])
    {
      BuscarEn(nombres, url)
    }

    function BuscarEn(ns: seq<string>, url: string): (r: Option<Respuesta>)
      reads this
      ensures r.Some? <==> exists i :: 0 <= i < |ns| && url in Cache(ns[i])
      ensures r.Some? ==> exists i :: 0 <= i < |ns| && url in Cache(ns[i]) && r.value == Cache(ns[i])[url]
                                      && forall j :: 0 <= j < i ==> url !in Cache(ns[j])
      decreases |ns|
    {
      if ns == [] then None
      else if url in Cache(ns[0]) then Some(Cache(ns[0])[url])
      else
        var r := BuscarEn(ns[1..], url);
        if r.Some? then
          var i :| 0 <= i < |ns[1..]| && url in Cache(ns[1..][i]) && r.value == Cache(ns[1..][i])[url]
                   && forall j :: 0 <= j < i ==> url !in Cache(ns[1..][j]);
          assert ns[i + 1] == ns[1..][i];
          assert forall j :: 0 <= j < i + 1 ==> url !in Cache(ns[j]);
          r
        else r
    }

    /** `caches.open(n)`: creates an empty cache under a new name. */
    method Abrir(n: string)
      requires Valid()
      modifies this
      ensures Valid() && n in contenido
      ensures old(n in contenido) ==> nombres == old(nombres) && contenido == old(contenido)
      ensures old(n !in contenido) ==> nombres == old(nombres) + [n] && contenido == old(contenido)[n := map[]]
      ensures forall m :: Cache(m) == old(Cache(m))
    {
      if n !in contenido {
        nombres := nombres + [n];
        contenido := contenido[n := map[]];
      }
    }

    /** `cache.put(url, response)` on an open cache. */
    method Poner(n: string, url: string, r: Respuesta)
      requires Valid() && n in contenido
      modifies this`contenido
      ensures Valid()
      ensures contenido == old(contenido)[n := old(contenido)[n][url := r]]
      ensures Cache(n) == old(Cache(n))[url := r]
      ensures forall m :: m != n ==> Cache(m) == old(Cache(m))
    {
      contenido := contenido[n := contenido[n][url := r]];
    }

    /** `caches.delete(n)`: whether there was such a cache. */
    method Eliminar(n: string) returns (borrado: bool)
      requires Valid()
      modifies this
      ensures Valid()
      ensures borrado == old(n in contenido)
      ensures nombres == Quitar(old(nombres), n)
      ensures contenido == old(contenido) - {n}
    {
      borrado := n in contenido;
      QuitarDistintos(nombres, n);
      nombres := Quitar(nombres, n);
      contenido := contenido - {n};
    }

    /** `cacheFirstStrategy`. */
    method CacheFirstStrategy(req: Peticion, red: Red) returns (resp: Respuesta)
      requires Valid()
      modifies this
      ensures Valid()
      ensures resp == ServirCacheFirst(old(Cache(STATIC_CACHE)), req, red, Coincidir(OFFLINE_URL))
      ensures nombres == (if old(STATIC_CACHE in contenido) then old(nombres) else old(nombres) + [STATIC_CACHE])
      ensures nombres == Anexar(old(nombres), STATIC_CACHE)
      ensures Cache(STATIC_CACHE) == (if req.url in old(Cache(STATIC_CACHE)) then old(Cache(STATIC_CACHE))
                                      else GuardarSiOk(old(Cache(STATIC_CACHE)), req.url, red))
      ensures forall n :: n != STATIC_CACHE ==> Cache(n) == old(Cache(n))
    {
      Abrir(STATIC_CACHE);
      var cache := Cache(STATIC_CACHE);
      if req.url in cache {
        resp := cache[req.url];
        return;
      }
      match red {
        case Responde(r) =>
          if r.Ok() {
            Poner(STATIC_CACHE, req.url, r);
          }
          resp := r;
        case Falla =>
          if req.modo == NAVEGAR {
            resp := Coincidir(OFFLINE_URL).GetOr(APLICACION_OFFLINE);
          } else {
            resp := RECURSO_NO_DISPONIBLE;
          }
      }
    }

    /** `networkFirstStrategy`. */
    method NetworkFirstStrategy(req: Peticion, red: Red) returns (resp: Respuesta)
      requires Valid()
      modifies this
      ensures Valid()
      ensures resp == ServirNetworkFirst(old(Cache(DYNAMIC_CACHE)), old(Cache(STATIC_CACHE)), req, red, Coincidir(OFFLINE_URL))
      ensures Cache(DYNAMIC_CACHE) == GuardarSiOk(old(Cache(DYNAMIC_CACHE)), req.url, red)
      ensures forall n :: n != DYNAMIC_CACHE ==> Cache(n) == old(Cache(n))
      ensures forall n :: n in old(nombres) ==> n in nombres
      ensures nombres == NombresTrasNetworkFirst(old(nombres), old(Cache(DYNAMIC_CACHE)), req.url, red)
    {
      match red {
        case Responde(r) =>
          if r.Ok() {
            Abrir(DYNAMIC_CACHE);
            Poner(DYNAMIC_CACHE, req.url, r);
          }
          resp := r;
        case Falla =>
          Abrir(DYNAMIC_CACHE);
          var dinamica := Cache(DYNAMIC_CACHE);
          if req.url in dinamica {
            resp := dinamica[req.url];
            return;
          }
          Abrir(STATIC_CACHE);
          var estatica := Cache(STATIC_CACHE);
          if req.url in estatica {
            resp := estatica[req.url];
            return;
          }
          if req.modo == NAVEGAR {
            resp := Coincidir(OFFLINE_URL).GetOr(PAGINA_OFFLINE);
          } else {
            resp := RECURSO_NO_DISPONIBLE;
          }
      }
    }

    /** The `fetch` handler. */
    method AlInterceptar(req: Peticion, red: Red) returns (resp: Respuesta)
      requires Valid()
      modifies this
      ensures Valid()
      ensures resp == Servir(old(Cache(DYNAMIC_CACHE)), old(Cache(STATIC_CACHE)), req, red, Coincidir(OFFLINE_URL))
      ensures Enrutar(req) == CacheFirst ==>
                && Cache(STATIC_CACHE) == (if req.url in old(Cache(STATIC_CACHE)) then old(Cache(STATIC_CACHE))
                                           else GuardarSiOk(old(Cache(STATIC_CACHE)), req.url, red))
                && (forall n :: n != STATIC_CACHE ==> Cache(n) == old(Cache(n)))
                && nombres == Anexar(old(nombres), STATIC_CACHE)
      ensures Enrutar(req) == NetworkFirst ==>
                && Cache(DYNAMIC_CACHE) == GuardarSiOk(old(Cache(DYNAMIC_CACHE)), req.url, red)
                && (forall n :: n != DYNAMIC_CACHE ==> Cache(n) == old(Cache(n)))
                && nombres == NombresTrasNetworkFirst(old(nombres), old(Cache(DYNAMIC_CACHE)), req.url, red)
    {
      if Enrutar(req) == CacheFirst {
        resp := CacheFirstStrategy(req, red);
      } else {
        resp := NetworkFirstStrategy(req, red);
      }
    }

    /** The `activate` handler: delete every cache but the current static and dynamic ones. */
    method Activar()
      requires Valid()
      modifies this
      ensures Valid()
      ensures nombres == Conservadas(old(nombres))
      ensures forall n :: n in nombres <==> n in old(nombres) && (n == STATIC_CACHE || n == DYNAMIC_CACHE)
      ensures CACHE_NAME !in nombres
      ensures forall n :: n in contenido ==> contenido[n] == old(contenido)[n]
    {
      var ks := nombres;
      for i := 0 to |ks|
        invariant Valid()
        invariant nombres == Conservadas(ks[..i]) + ks[i..]
        invariant forall n :: n in contenido ==> n in old(contenido) && contenido[n] == old(contenido)[n]
      {
        if !Conservar(ks[i]) {
          var _ := Eliminar(ks[i]);
          PasoBorrado(ks, i);
        } else {
          PasoConservado(ks, i);
        }
      }
      assert ks[..|ks|] == ks;
      CacheAnteriorNoSeConserva();
    }
  }

  // ---------------------------------------------------------------------------------
  // Messages and background sync

  /** `event.data` of a `message` event: absent, or an object whose `type` may be absent. */
  datatype DatosMensaje = SinDatos | ConDatos(tipo: Option<string>)

  /** The worker's own state outside the caches: whether `self.skipWaiting()` has been
      called, and how many times `syncData` has run. */
  class Trabajador {
    var esperaSaltada: bool
    var sincronizaciones: nat

    constructor ()
      ensures !esperaSaltada && sincronizaciones == 0
    {
      esperaSaltada := false;
      sincronizaciones := 0;
    }

    /** The `message` handler: only the message `{type: "SKIP_WAITING"}` calls `skipWaiting`. */
    method AlMensaje(d: DatosMensaje)
      modifies this`esperaSaltada
      ensures d == ConDatos(Some("SKIP_WAITING")) ==> esperaSaltada
      ensures d != ConDatos(Some("SKIP_WAITING")) ==> esperaSaltada == old(esperaSaltada)
    {
      if d.ConDatos? && d.tipo.Some? && d.tipo.value == "SKIP_WAITING" {
        esperaSaltada := true;
      }
    }

    /** The `sync` handler: only the tag "background-sync" runs `syncData`, once per event. */
    method AlSincronizar(tag: string)
      modifies this`sincronizaciones
      ensures tag == "background-sync" ==> sincronizaciones == old(sincronizaciones) + 1
      ensures tag != "background-sync" ==> sincronizaciones == old(sincronizaciones)
    {
      if tag == "background-sync" {
        sincronizaciones := sincronizaciones + 1;
      }
    }
  }
}
