# NKD Pereira storefront — a Dafny model

A model of the offline-capable storefront for motorcycle spare parts "NKD Pereira": the
IndexedDB manager that holds the catalogue, the cart, settings, a sync log and the purchase
history (`js/db.js`); the catalogue page's in-memory cart copy, its localStorage fallback and
its category filter (`js/main.js`); the cart page's totals, purchase record and WhatsApp order
message (`js/carrito.js`); and the service worker's request routing, caching strategies and
activation clean-up (`js/sw.js`).

| file | module | models |
|---|---|---|
| `comun.dfy` | `Comun` | products, cart lines, purchase records; the `reduce` sums over a list of lines and the order-independent sum over a store |
| `db.dfy` | `BaseDatos` | class `DBManager`: one `map` field per object store, the sync log's key generator, the online flag; the schema upgrade; the cart, log and catalogue transitions as functions with their lemmas |
| `carrito.dfy` | `Carrito` | cart totals, the purchase record, the order message, the clear and checkout confirmations |
| `tienda.dfy` | `Tienda` | `find`/`findIndex`/`filter`, the find-or-push rule, class `Pagina` (catalogue, cart copy, localStorage entry, badge) |
| `sw.dfy` | `ServiceWorker` | routing, the two strategies as pure answers and as methods on class `CacheStorage`, activation, and the message and sync handlers on class `Trabajador` |

Modelling choices:

- Each asynchronous store method is one atomic step. The current time (`new Date()`) is an
  `Instante` parameter `ahora`.
- Prices and quantities are integers, so every total is exact.
- `getAll()` lists each record once, in ascending key order. For the stores keyed by product id
  the model leaves that order open (predicates `Enumera` and `ListaCatalogo`): every order the
  browser could use is allowed, the real one among them. Every total is proved independent of
  the order (`Comun.SumaEnumeracion`); the results that do depend on it are listed under
  "Left out". The sync log has numeric keys and is listed in ascending key order.
- The sync log's auto-increment generator is the field `siguienteId`. It starts at 1 and
  `clear()` does not reset it.
- A failed append to the sync log resolves `false` and never undoes the cart change. This
  outcome is a `falloRegistro` input.
- The service worker sees a request as mode, full URL and host name. The network is an input
  `Red`: either a response or a failure.
- Confirmation dialogs are boolean inputs.
- The five object stores are the enumeration `Almacen`, and `Nombre` gives each store's name. The schema maps each existing store to its declaration: key path, key generator and indexes.

## Model

| member | source | states |
|---|---|---|
| `BaseDatos.EsquemaCompleto` | js/db.js:47-87 | after the upgrade step all five stores exist; a store already present keeps its declaration, a missing one gets its key path, key generator and indexes |
| `BaseDatos.EsquemaIdempotente` | js/db.js:47-87 | every creation is guarded by a `contains` test, so running the upgrade twice equals running it once |
| `BaseDatos.DBManager.constructor` | js/db.js:3-20 | no database opened, all stores empty (a first visit; the browser keeps the stores across visits), key generator at 1, online flag as given |
| `BaseDatos.DBManager.Init` | js/db.js:23-44 | the upgrade runs only when the stored version is below 1, and then leaves the complete schema at version 1 |
| `BaseDatos.DBManager.CrearStore` | js/db.js:49-54 | one guarded creation: a missing store is added with its declaration, an existing one is left alone, and the schema reached so far stays consistent with the upgrade's result |
| `BaseDatos.DBManager.CreateStores` | js/db.js:47-87 | the five guarded creations, in order, produce exactly the schema `EsquemaCompleto` describes |
| `BaseDatos.Catalogo` | js/db.js:95-104 | after clear and one add per product, the store's keys are exactly the listed ids, each record under its own id, stamped with the save time |
| `BaseDatos.CatalogoExacto` | js/db.js:95-104 | with distinct ids the store holds one record per product, each holding that product |
| `BaseDatos.DBManager.GuardarProductos` | js/db.js:90-112 | succeeds exactly when the ids are distinct and then replaces the store by the new catalogue; otherwise the store is unchanged |
| `BaseDatos.DBManager.ObtenerProductos` | js/db.js:114-128 | lists every stored product exactly once: as many records as are stored, no id twice, each one the record stored under its id |
| `BaseDatos.DBManager.ObtenerProductoPorId` | js/db.js:147-161 | finds a record exactly when the key is stored, and the record carries that id |
| `BaseDatos.AgregarLinea` | js/db.js:171-198 | the cart gains the product's key; an existing line gets one more unit and keeps its product, a new line holds the product with one unit; all other lines unchanged; the cart invariant is kept |
| `BaseDatos.ContadorTrasAgregar` | js/db.js:171-198 | adding puts exactly one more unit in the cart, whether or not the line existed |
| `BaseDatos.DBManager.AgregarAlCarrito` | js/db.js:164-212 | resolves true; the cart becomes the add-or-increment of the product; one unsynced "agregar" entry is logged under the next generated key unless the append fails |
| `Comun.ClavesDe` | js/db.js:214-228 | a listing of a store's keys: each key once, as many as the store holds |
| `BaseDatos.DBManager.ObtenerCarrito` | js/db.js:214-228 | lists every stored line exactly once |
| `BaseDatos.DBManager.ObtenerProductoCarrito` | js/db.js:231-244 | finds a line exactly when the id is stored; that line has the id and at least one unit |
| `BaseDatos.DBManager.EliminarDelCarrito` | js/db.js:247-276 | removes the key (an absent key is no error) and logs one "eliminar" entry unless the append fails |
| `BaseDatos.ContadorTrasEliminar` | js/db.js:247-276 | deleting a line removes all of its units from the count, and nothing when it is absent |
| `BaseDatos.DBManager.VaciarCarrito` | js/db.js:279-306 | the cart is empty and one "carrito_vaciado" entry is logged unless the append fails |
| `Comun.SumaEnumeracion` | js/db.js:309-313 | the `reduce` over any listing of a store equals the store's own sum, so `getAll`'s order cannot change a count or a total |
| `Comun.SumaMapaQuitar` | js/db.js:309-313 | the store sum can be split at any line, not only the one the definition picks |
| `Comun.SumaMapaCotaInferior` | js/db.js:309-313 | a store whose lines each weigh at least one sums to at least its number of lines |
| `BaseDatos.DBManager.ObtenerContadorCarrito` | js/db.js:309-317 | the badge count is the sum of units over the store; it is at least the number of lines and is 0 exactly for an empty cart |
| `BaseDatos.IncrementarLinea` | js/db.js:334-341 | the line gets one more unit and keeps its product; no other line changes; the cart invariant is kept |
| `BaseDatos.ContadorTrasIncrementar` | js/db.js:334-341 | incrementing puts exactly one more unit in the cart |
| `BaseDatos.DBManager.IncrementarCantidad` | js/db.js:331-356 | a present line gets one more unit and nothing is logged; an absent id is rejected with "Producto no encontrado en carrito" and nothing changes |
| `BaseDatos.DecrementarLinea` | js/db.js:362-381 | above one unit the line loses one; at one unit the line is deleted; other lines unchanged; the cart invariant is kept |
| `BaseDatos.ContadorTrasDecrementar` | js/db.js:362-381 | decrementing takes exactly one unit out of the cart, also when it deletes the line |
| `BaseDatos.EscenarioAgregarYDecrementar` | js/db.js:362-381 | adding a product worth 1000 twice and decrementing twice gives 1 unit/1000, 2 units/2000, 1 unit, then an empty cart worth 0 |
| `BaseDatos.DBManager.DecrementarCantidad` | js/db.js:359-390 | a present line is decremented; deleting the last unit goes through the deletion and so is logged; an absent id is rejected and nothing changes |
| `BaseDatos.DBManager.RegistrarCompra` | js/db.js:393-410 | stores the record under its id; an id already used is rejected with a constraint error and the history is unchanged |
| `BaseDatos.DBManager.GuardarConfiguracion` | js/db.js:413-433 | last write wins: reading the key afterwards gives the new value, every other key reads as before |
| `BaseDatos.DBManager.ObtenerConfiguracion` | js/db.js:436-451 | the stored value for a present key, the caller's default otherwise |
| `BaseDatos.DBManager.RegistrarAccionSincronizacion` | js/db.js:454-475 | resolves true exactly when the append succeeds; then one fresh unsynced entry sits under the next generated key; on failure nothing changes |
| `BaseDatos.AnotadaEsFresca` | js/db.js:459-464 | an append uses a key no entry holds, keeps the log well formed and adds exactly one pending entry |
| `BaseDatos.PendientesHasta` | js/db.js:478-492 | lists only stored, unsynced entries, in strictly ascending key order |
| `BaseDatos.PendientesHastaCompleta` | js/db.js:478-492 | the listing names every pending key exactly once |
| `BaseDatos.DBManager.ObtenerAccionesPendientes` | js/db.js:478-492 | exactly the unsynced entries, each once, in key order |
| `BaseDatos.MarcarIds` | js/db.js:531-536 | marking a set of keys keeps every key, marks each chosen entry and leaves the others alone |
| `BaseDatos.DBManager.MarcarComoSincronizado` | js/db.js:495-522 | a stored entry is marked synchronised with the current time and the call resolves true; an unknown id resolves false and changes nothing |
| `BaseDatos.MarcarPendientesVacia` | js/db.js:525-543 | marking every pending entry leaves nothing pending, keeps the log well formed and leaves entries that were already synchronised untouched |
| `BaseDatos.DBManager.SyncOfflineData` | js/db.js:525-543 | offline it does nothing; online it marks every entry pending at the start, and only those |
| `BaseDatos.DBManager.AlConectar` | js/db.js:10-14 | the `online` event sets the flag and replays the log: exactly the entries pending before are marked synchronised at the given time, every other entry stays as it was, and afterwards none is pending |
| `BaseDatos.DBManager.AlDesconectar` | js/db.js:16-19 | the `offline` event clears the flag |
| `BaseDatos.DBManager.LimpiarBaseDatos` | js/db.js:546-566 | all five stores are empty; schema and key generator stay |
| `BaseDatos.DBManager.ObtenerEstadisticas` | js/db.js:568-587 | number of products, number of cart lines, cart value as the store sum of price times quantity, number of pending entries, and a last-update time taken from some stored product, absent exactly when there are none |
| `Carrito.TotalNoNegativo` | js/carrito.js:213-216 | with non-negative prices and quantities the cart total is never negative |
| `Carrito.UnidadesAlMenosLineas` | js/carrito.js:188-193 | when every line holds a unit, the unit count is at least the number of lines, and 0 exactly for an empty cart |
| `Carrito.TotalesDeInstantanea` | js/carrito.js:213-216 | the page's totals over a listing of the store equal the store's sums of subtotals and units |
| `Carrito.NuevaCompra` | js/carrito.js:375-382 | the record copies the snapshot, carries its total and unit count, the given id and date, and the state "enviado_whatsapp" |
| `Carrito.CompraRefleja` | js/carrito.js:373-390 | a record built from a listing of the cart store lists that store and carries its total and unit count |
| `Carrito.Detalle` | js/carrito.js:273-278 | one block per line, in cart order, numbered from 1, with title, quantity, unit price and price times quantity |
| `Carrito.SubtotalesSumanTotal` | js/carrito.js:262-283 | the printed subtotals add up to the cart total |
| `Carrito.GenerarMensajeWhatsApp` | js/carrito.js:262-289 | the message names the shop and date, has one numbered block per line, states the unit count, and its total to pay equals the sum of its own subtotals and the cart total |
| `Carrito.MensajeCoincideConCompra` | js/carrito.js:262-264 | the total to pay and the unit count in the order message equal those of the purchase record built from the same snapshot |
| `Carrito.VaciarConConfirmacion` | js/carrito.js:188-210 | the dialog announces the snapshot's unit count; only on confirmation is the store's cart emptied and the clearing logged |
| `Carrito.ComprarAhora` | js/carrito.js:299-371 | the first dialog shows the snapshot's units and total; without both confirmations nothing changes; with both, the record is added unless its id is taken, the order message is produced from the snapshot, and the cart is emptied |
| `Tienda.Primero` | js/main.js:124 | `find` returns a product exactly when one satisfies the test, and then the first such product |
| `Tienda.PrimerIndice` | js/main.js:258 | `findIndex` gives the first position holding the id, or -1 exactly when none does |
| `Tienda.BuscarIndice` | js/main.js:258 | the search loop returns `findIndex`'s result |
| `Tienda.DeCategoria` | js/main.js:127 | the filter keeps exactly the products of the category and never lengthens the list |
| `Tienda.DeCategoriaConcat` | js/main.js:127 | the filter keeps the catalogue's order: filtering a concatenation is concatenating the filtered parts |
| `Tienda.DeCategoriaTodos` | js/main.js:127 | a catalogue entirely of the category passes the filter whole |
| `Tienda.DeCategoriaNinguno` | js/main.js:127 | a catalogue with none of the category yields nothing |
| `Tienda.FiltrarPorCategoria` | js/main.js:122-134 | "todos" shows every product under "Todos los repuestos"; another id with a match shows exactly the filtered products under the category name of the first matching product, the one `find` returns; an id with no match leaves the page as it was |
| `Tienda.ConUnidadMas` | js/main.js:258-266 | for an id already in the list that entry gains one unit, the length stays and every other entry is untouched; for a new id the product is appended with one unit |
| `Tienda.UnidadMasIdsUnicos` | js/main.js:258-266 | keyed by the product's own id, the rule keeps ids unique |
| `Tienda.UnidadMasSumaUno` | js/main.js:258-266 | the rule puts exactly one more unit in the list |
| `Tienda.SumarUnidad` | js/main.js:229-237 | the in-place increment-or-push computes the find-or-push rule |
| `Tienda.LecturaRefleja` | js/main.js:75-89 | a cart copy read from the store mirrors it: each stored line appears once with the store's quantity |
| `Tienda.ReflejoTrasAgregar` | js/main.js:218-237 | adding the same product to the copy and to the store keeps the copy a mirror of the store |
| `Tienda.ReflejoMismoContador` | js/main.js:272-284 | while the copy mirrors the store, the fallback sum over the copy equals the store's count |
| `Tienda.ClicMantieneReflejo` | js/main.js:203-252 | after a click the copy still mirrors the store and both badge computations agree |
| `Tienda.Pagina.constructor` | js/main.js:1-2 | the page starts with the given catalogue, an empty cart copy and the stored localStorage entry |
| `Tienda.Pagina.ActualizarNumerito` | js/main.js:272-284 | the badge is the store's count when there is a store, otherwise the sum of the copy's quantities |
| `Tienda.Pagina.CargarCarritoDesdeLocalStorage` | js/main.js:92-101 | the copy is the stored list, or empty when the key is missing; the badge is refreshed |
| `Tienda.Pagina.CargarCarritoDesdeDB` | js/main.js:75-89 | with a store the copy is a listing of it and mirrors it; without, the localStorage fallback; on both paths the badge is refreshed |
| `Tienda.Pagina.AgregarAlCarritoLocalStorage` | js/main.js:255-269 | the stored list (empty when missing) goes through the find-or-push rule keyed by the product's id |
| `Tienda.Pagina.AgregarAlCarrito` | js/main.js:203-252 | no product found: nothing changes; otherwise the store's cart gets the product and one "agregar" entry is logged under the next key unless the append fails, localStorage is touched only when no store reported success, the copy follows the find-or-push rule keyed by the button id, and the badge is refreshed; the store's catalogue, settings, purchases, schema and flag never change |
| `ServiceWorker.IncluyeSiOcurre` | js/sw.js:81 | `includes` holds exactly when the text occurs at some position |
| `ServiceWorker.Enrutar` | js/sw.js:70-100 | navigation always goes network-first; any other request goes cache-first exactly when its URL is listed, contains `/css/`, `/js/` or `/img/`, or its host contains one of the two CDN names |
| `ServiceWorker.SoloCdnSinBarra` | js/sw.js:6-24 | the list is matched against the full URL, so a URL not starting with `/` can only match one of the four CDN entries |
| `ServiceWorker.ManifiestoAbsolutoNoListado` | js/sw.js:17 | the manifest is listed by path, but its absolute URL is not in the list |
| `ServiceWorker.ServirCacheFirst` | js/sw.js:103-134 | a cache hit is returned whatever the network does; on a miss the network's response is returned; if the fetch fails a navigation gets the offline page or a 200 fallback and any other request a 503 |
| `ServiceWorker.ServirNetworkFirst` | js/sw.js:137-199 | a network response is returned as is; on failure the dynamic cache is tried, then the static cache, then the offline page for a navigation, else a 503 |
| `ServiceWorker.EstaticoCacheadoSinRed` | js/sw.js:81-111 | a static resource already in the static cache is served from it, whatever the network does |
| `ServiceWorker.NavegacionSinRed` | js/sw.js:148-195 | offline, a navigation gets a cached copy, the cached offline page or the built-in offline page, never the 503 |
| `ServiceWorker.GuardarSiOk` | js/sw.js:116-118 | a response is stored under the URL only when it is ok; no other entry changes |
| `ServiceWorker.Quitar` | js/sw.js:57 | deleting a cache name leaves every other name |
| `ServiceWorker.Anexar` | js/sw.js:105 | opening a cache keeps the existing names in order and adds the new name at the end, once |
| `ServiceWorker.NombresTrasNetworkFirst` | js/sw.js:137-199 | after the network-first strategy the old names are a prefix of the new list, and the only names added are the dynamic and static caches' |
| `ServiceWorker.Conservadas` | js/sw.js:54-59 | the names kept by activation are exactly those equal to the static or the dynamic cache name |
| `ServiceWorker.CacheStorage.Coincidir` | js/sw.js:126 | `caches.match` finds a response exactly when some cache holds the URL, and then the one of the first such cache in creation order |
| `ServiceWorker.CacheStorage.Abrir` | js/sw.js:105 | opening creates an empty cache under a new name and changes no cache's contents |
| `ServiceWorker.CacheStorage.Poner` | js/sw.js:117 | `put` writes one entry of one cache |
| `ServiceWorker.CacheStorage.Eliminar` | js/sw.js:57 | `delete` removes the name and its contents and reports whether it existed |
| `ServiceWorker.CacheStorage.CacheFirstStrategy` | js/sw.js:103-134 | answers as the cache-first answer; the static cache gains the fetched response only on a miss with an ok response; no other cache changes; the static cache's name is appended to the name list if it was missing |
| `ServiceWorker.CacheStorage.NetworkFirstStrategy` | js/sw.js:137-199 | answers as the network-first answer; the dynamic cache gains the response only when it is ok; no other cache changes; the name list keeps its old names in order and can only gain the dynamic cache's name (on an ok response or a failed fetch) and then the static cache's (on a failed fetch that misses the dynamic cache) |
| `ServiceWorker.CacheStorage.AlInterceptar` | js/sw.js:70-100 | the fetch handler answers with the strategy the routing picks; a cache-first request can only add the fetched response to the static cache on a miss, a network-first one only an ok response to the dynamic cache; every other cache keeps its contents; the name list changes exactly as the chosen strategy changes it |
| `ServiceWorker.CacheStorage.Activar` | js/sw.js:47-67 | exactly the static and dynamic caches survive, in their order; every other name, the old `CACHE_NAME` included, is deleted; surviving contents are unchanged |
| `ServiceWorker.Trabajador.constructor` | js/sw.js:202-214 | a fresh worker has not called `skipWaiting` and has run `syncData` no times |
| `ServiceWorker.Trabajador.AlMensaje` | js/sw.js:202-206 | the message `{type: "SKIP_WAITING"}` calls `skipWaiting`; any other message, or one without data, changes nothing |
| `ServiceWorker.Trabajador.AlSincronizar` | js/sw.js:209-214 | the tag "background-sync" runs `syncData` once more; any other tag changes nothing |

## Left out

- IndexedDB request and transaction mechanics (callbacks, transaction lifetimes, engine errors such as a full disk or a closed database). Each store method is one atomic step. The only failures modelled are those the code raises or handles itself: not found, a reused purchase id, and a failed log append.
- `BaseDatos.DBManager.AgregarAlCarrito`: the model describes the intended behaviour, not what a browser does with this code. The write transaction is opened at js/db.js:167 and issues no request before the `await` at js/db.js:171. Under IndexedDB's rules it therefore commits before the lookup resolves. The `get`/`put` at js/db.js:177 and 186 would then throw, the promise would reject (js/db.js:209), and the log append at js/db.js:201 would never run. The model applies the cart write and the log append as one step.
- `BaseDatos.DBManager.GuardarProductos`: a repeated id is reported as `false` and the store is left unchanged. In a browser the `add` failure aborts the transaction only after the method has already returned `true`. The stored contents are the same either way.
- `BaseDatos.DBManager.ObtenerProductos`: the listing is not stated to be in ascending key order; the model allows any order. The catalogue the page renders from it is therefore not pinned to the browser's order.
- `BaseDatos.DBManager.ObtenerCarrito`: the listing is not stated to be in ascending key order either. Every total over it is proved order-independent, but the line numbering of the order message and the order of the cart page's lines follow a listing the model leaves open.
- `BaseDatos.DBManager.ObtenerEstadisticas`: the last-update time comes from "some stored product", not specifically the product with the smallest id, which is the one `getAll` lists first, because the listing order is left open.
- `obtenerTotalProductosCarrito` (js/db.js:320-329) is not modelled separately. It computes exactly what `obtenerContadorCarrito` computes.
- `obtenerProductosPorCategoria` (js/db.js:130-145) is an index query that no modelled code path calls.
- `syncOfflineData` has no remote step: the code marks every pending entry as synchronised without contacting a server, and the model does the same.
- Dates are opaque integers. `toISOString`, `toLocaleDateString`, `toLocaleString('es-CO')` and `Date.now().toString()` (the purchase id) are caller inputs or abstracted.
- From `js/main.js`: application start-up, loading the catalogue from `productos.json` or from the store, rendering product cards, toasts, button animation and the `online` reload. All of this is network, DOM or timer work.
- `Tienda.Pagina.AgregarAlCarrito`: the product in `data-producto` is taken as given, without modelling JSON parsing. The store never rejects in this model, so the localStorage fallback only runs when there is no store.
- From `js/carrito.js`: page loading, the wait for the store, the quantity and delete buttons, the `BroadcastChannel` badge sync, SweetAlert dialogs (boolean inputs), `window.open` of the `wa.me` link with the shop's number, and `encodeURIComponent`. The quantity and delete buttons only forward to the store methods, which are modelled.
- `Carrito.ComprarAhora`: the one-second delay before the cart is cleared is not modelled, so the clearing is part of the same step. A record rejected for a reused id is dropped silently, as the code's `catch` does.
- `Carrito.GenerarMensajeWhatsApp`: the message is a structured value. Its text, emojis and number formatting are abstracted away.
- From `js/sw.js`: the `install` step (`cache.addAll`, which needs the network), `clients.claim`, the browser's reaction to `skipWaiting` (the model records only that it was called), what `syncData` does (the model counts its runs; its `/api/sync` POST is network work), push notifications and notification clicks.
- `ServiceWorker.CacheStorage.AlInterceptar`: the request's host name is an input rather than parsed from the URL. The request method is not modelled, although `cache.put` of a non-GET request would reject.
- `ServiceWorker.CacheStorage.CacheFirstStrategy` and `ServiceWorker.CacheStorage.NetworkFirstStrategy`: the `cache.put` that is not awaited is modelled as completed before the response is returned. Cache keys are plain URLs: `/offline.html` is looked up literally, and headers and `Vary` are not considered.
- `ServiceWorker.CacheStorage.Activar`: the deletions run in parallel in the code and in list order in the model. The final state is the same.
- `js/pwa.js` and `js/menu.js` are not part of this model.
- Prices are whole integers, so floating-point rounding is not modelled.
