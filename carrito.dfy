/** The cart page: the `reduce` totals over its snapshot `productosEnCarrito` (the lines the
    store listed at the last reload), the purchase record and the order message built from
    that snapshot, and the two confirmed actions that write to the store. */
module Carrito {
  import opened Comun
  import BaseDatos

  const NOMBRE_TIENDA := "NKD Pereira"
  const ESTADO_ENVIADO := "enviado_whatsapp"

  /** `actualizarTotal` and the checkout total: `reduce((acc, p) => acc + p.precio * p.cantidad, 0)`. */
  function TotalCarrito(s: seq<Linea>): int {
    Suma(s, Subtotal)
  }

  /** The unit count of the clear confirmation and of checkout: `reduce((acc, p) => acc + p.cantidad, 0)`. */
  function UnidadesCarrito(s: seq<Linea>): int {
    Suma(s, Cantidad)
  }

  /** Lines with non-negative prices and quantities never make a negative total. */
  lemma TotalNoNegativo(s: seq<Linea>)
    requires forall i :: 0 <= i < |s| ==> s[i].producto.precio >= 0 && s[i].cantidad >= 0
    ensures TotalCarrito(s) >= 0
  {
    forall i | 0 <= i < |s| ensures Subtotal(s[i]) >= 0 {
      assert s[i].producto.precio * s[i].cantidad >= 0;
    }
    SumaCotaInferior(s, Subtotal, 0);
  }

  /** Every line holds at least one unit, so the unit count is at least the number of lines,
      and it is 0 exactly for an empty cart. */
  lemma UnidadesAlMenosLineas(s: seq<Linea>)
    requires forall i :: 0 <= i < |s| ==> s[i].cantidad >= 1
    ensures UnidadesCarrito(s) >= |s|
    ensures UnidadesCarrito(s) == 0 <==> s == []
  {
    SumaCotaInferior(s, Cantidad, 1);
  }

  /** A snapshot the store listed has the store's totals, whatever order the listing took. */
  lemma TotalesDeInstantanea(s: seq<Linea>, m: map<string, Linea>)
    requires Enumera(s, m)
    ensures TotalCarrito(s) == SumaMapa(m, Subtotal)
    ensures UnidadesCarrito(s) == SumaMapa(m, Cantidad)
  {
    SumaEnumeracion(s, m, Subtotal);
    SumaEnumeracion(s, m, Cantidad);
  }

  /** The record `registrarCompra` builds: a copy of the snapshot and its two sums. */
  function NuevaCompra(s: seq<Linea>, id: string, fecha: Instante): (c: Compra)
    ensures c.id == id && c.fecha == fecha && c.estado == ESTADO_ENVIADO
    ensures c.productos == s
    ensures c.total == TotalCarrito(s) && c.cantidad == UnidadesCarrito(s)
  {
    Compra(id, fecha, s, TotalCarrito(s), UnidadesCarrito(s), ESTADO_ENVIADO)
  }

  /** A record built from a listing of the cart store carries that store's total and unit count. */
  lemma CompraRefleja(s: seq<Linea>, m: map<string, Linea>, id: string, fecha: Instante)
    requires Enumera(s, m)
    ensures Enumera(NuevaCompra(s, id, fecha).productos, m)
    ensures NuevaCompra(s, id, fecha).total == SumaMapa(m, Subtotal)
    ensures NuevaCompra(s, id, fecha).cantidad == SumaMapa(m, Cantidad)
  {
    TotalesDeInstantanea(s, m);
  }

  // ---------------------------------------------------------------------------------
  // The order message, with its text formatting abstracted away

  /** One numbered block of the message: title, quantity, unit price and subtotal. */
  datatype Bloque = Bloque(numero: nat, titulo: string, cantidad: int, precioUnitario: int, subtotal: int)

  /** The message: shop name, date, units requested, the blocks, and the total to pay. */
  datatype Pedido = Pedido(tienda: string, fecha: Instante, productosSolicitados: int,
                           detalle: seq<Bloque>, totalAPagar: int)

  function BloqueDe(l: Linea, numero: nat): Bloque {
    Bloque(numero, l.producto.titulo, l.cantidad, l.producto.precio, l.producto.precio * l.cantidad)
  }

  /** The `forEach((producto, index) => mensaje += ...)` fold: one block per line, appended in order. */
  function Detalle(s: seq<Linea>): (d: seq<Bloque>)
    ensures |d| == |s|
    ensures forall i :: 0 <= i < |s| ==>
              && d[i].numero == i + 1
              && d[i].titulo == s[i].producto.titulo
              && d[i].cantidad == s[i].cantidad
              && d[i].precioUnitario == s[i].producto.precio
              && d[i].subtotal == Subtotal(s[i])
    decreases |s|
  {
    if s == [] then [] else Detalle(s[..|s| - 1]) + [BloqueDe(s[|s| - 1], |s|)]
  }

  function SumaSubtotales(d: seq<Bloque>): int
    decreases |d|
  {
    if d == [] then 0 else SumaSubtotales(d[..|d| - 1]) + d[|d| - 1].subtotal
  }

  /** The printed subtotals add up to the cart total. */
  lemma {:induction false} SubtotalesSumanTotal(s: seq<Linea>)
    ensures SumaSubtotales(Detalle(s)) == TotalCarrito(s)
    decreases |s|
  {
    if s != [] {
      var d := Detalle(s);
      assert d[..|d| - 1] == Detalle(s[..|s| - 1]);
      SubtotalesSumanTotal(s[..|s| - 1]);
    }
  }

  /** `generarMensajeWhatsApp`. */
  function GenerarMensajeWhatsApp(s: seq<Linea>, fecha: Instante): (p: Pedido)
    ensures p.tienda == NOMBRE_TIENDA && p.fecha == fecha
    ensures |p.detalle| == |s|
    ensures forall i :: 0 <= i < |s| ==> p.detalle[i].numero == i + 1 && p.detalle[i].subtotal == Subtotal(s[i])
    ensures p.totalAPagar == SumaSubtotales(p.detalle) == TotalCarrito(s)
    ensures p.productosSolicitados == UnidadesCarrito(s)
  {
    SubtotalesSumanTotal(s);
    Pedido(NOMBRE_TIENDA, fecha, UnidadesCarrito(s), Detalle(s), TotalCarrito(s))
  }

  // ---------------------------------------------------------------------------------
  // The two confirmed actions

  /** The "vaciar" button: the dialog announces the snapshot's unit count; on confirmation the
      store's cart is emptied. */
  method VaciarConConfirmacion(db: BaseDatos.DBManager, productosEnCarrito: seq<Linea>, confirma: bool,
                               ahora: Instante, falloRegistro: bool)
    returns (anunciadas: int)
    requires db.Valid()
    modifies db`carrito, db`sincronizacion, db`siguienteId
    ensures db.Valid()
    ensures anunciadas == UnidadesCarrito(productosEnCarrito)
    ensures !confirma ==> db.carrito == old(db.carrito) && db.sincronizacion == old(db.sincronizacion)
                          && db.siguienteId == old(db.siguienteId)
    ensures confirma ==> db.carrito == map[]
    ensures confirma ==> BaseDatos.Anotada(old(db.sincronizacion), old(db.siguienteId), db.sincronizacion, db.siguienteId,
                                           BaseDatos.CarritoVaciado, BaseDatos.DatosVaciado(ahora), ahora, falloRegistro)
  {
    anunciadas := UnidadesCarrito(productosEnCarrito);
    if confirma {
      var _ := db.VaciarCarrito(ahora, falloRegistro);
    }
  }

  /** The "comprar" button: the first dialog shows the snapshot's units and total; after both
      confirmations the purchase is recorded (an id already used only loses the record), the
      message is produced, and the cart is emptied. */
  method ComprarAhora(db: BaseDatos.DBManager, productosEnCarrito: seq<Linea>,
                      confirma: bool, confirmaWhatsApp: bool,
                      id: string, fecha: Instante, ahora: Instante, falloRegistro: bool)
    returns (unidadesMostradas: int, totalMostrado: int, pedido: Option<Pedido>)
    requires db.Valid()
    modifies db`compras, db`carrito, db`sincronizacion, db`siguienteId
    ensures db.Valid()
    ensures unidadesMostradas == UnidadesCarrito(productosEnCarrito)
    ensures totalMostrado == TotalCarrito(productosEnCarrito)
    ensures !(confirma && confirmaWhatsApp) ==>
              && pedido == None
              && db.compras == old(db.compras) && db.carrito == old(db.carrito)
              && db.sincronizacion == old(db.sincronizacion) && db.siguienteId == old(db.siguienteId)
    ensures confirma && confirmaWhatsApp ==>
              && pedido == Some(GenerarMensajeWhatsApp(productosEnCarrito, fecha))
              && db.compras == (if id in old(db.compras) then old(db.compras)
                                else old(db.compras)[id := NuevaCompra(productosEnCarrito, id, fecha)])
              && db.carrito == map[]
              && BaseDatos.Anotada(old(db.sincronizacion), old(db.siguienteId), db.sincronizacion, db.siguienteId,
                                   BaseDatos.CarritoVaciado, BaseDatos.DatosVaciado(ahora), ahora, falloRegistro)
  {
    unidadesMostradas := UnidadesCarrito(productosEnCarrito);
    totalMostrado := TotalCarrito(productosEnCarrito);
    pedido := None;
    if confirma && confirmaWhatsApp {
      var compra := NuevaCompra(productosEnCarrito, id, fecha);
      var _ := db.RegistrarCompra(compra);
      pedido := Some(GenerarMensajeWhatsApp(productosEnCarrito, fecha));
      var _ := db.VaciarCarrito(ahora, falloRegistro);
    }
  }

  /** The order message's total and unit count are the stored record's. */
  lemma MensajeCoincideConCompra(s: seq<Linea>, id: string, fecha: Instante)
    ensures NuevaCompra(s, id, fecha).total == GenerarMensajeWhatsApp(s, fecha).totalAPagar
    ensures NuevaCompra(s, id, fecha).cantidad == GenerarMensajeWhatsApp(s, fecha).productosSolicitados
  {
  }
}
