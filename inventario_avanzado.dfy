/**
 * The indexed inventory (inventario-avanzado.py): products kept in a
 * dictionary by id, with auxiliary indexes (categories, lower-cased names,
 * providers) and an append-only history of operations. Python's dictionary
 * keeps insertion order; the model keeps the map together with the sequence
 * of its keys in insertion order. Timestamps are parameters (`ahora`,
 * `marca`), and the text of the history entries is a datatype.
 */
module InventarioAvanzado {
  import opened Wrappers
  import Text
  import PySeq

  function MaxInt(a: int, b: int): int { if a >= b then a else b }

  function MaxReal(a: real, b: real): real { if a >= b then a else b }

  /** The value of `x.get(key, default)` for an optional entry. */
  function GetOr<T>(x: Option<T>, default: T): T
  {
    if x.Some? then x.value else default
  }

  /** All fields of a product at one moment. */
  datatype Datos = Datos(id: string, nombre: string, cantidad: int, precio: real,
                         categoria: string, proveedor: string, fechaCreacion: string)

  /** The dictionary written by `to_dict` and read by `from_dict`:
      `categoria`, `proveedor` and `fecha_creacion` are read with `get` and a
      default, so they may be missing; the other four keys must be there. */
  datatype Registro = Registro(id: string, nombre: string, cantidad: int, precio: real,
                               categoria: Option<string>, proveedor: Option<string>,
                               fechaCreacion: Option<string>)

  /** A product's quantity and price are never negative. */
  predicate Acotado(d: Datos)
  {
    d.cantidad >= 0 && d.precio >= 0.0
  }

  /** `to_dict` on the fields: every key is written, and a clamped product
      reads back unchanged. */
  function Escribir(d: Datos): (r: Registro)
    ensures r.categoria.Some? && r.proveedor.Some? && r.fechaCreacion.Some?
    ensures forall ahora :: Acotado(d) ==> Leer(r, ahora) == d
  {
    Registro(d.id, d.nombre, d.cantidad, d.precio, Some(d.categoria), Some(d.proveedor), Some(d.fechaCreacion))
  }

  /** `from_dict`: the constructor clamps quantity and price, missing
      category and provider become "", and a missing date becomes `ahora`. */
  function Leer(r: Registro, ahora: string): (d: Datos)
    ensures Acotado(d)
    ensures d.cantidad == (if r.cantidad >= 0 then r.cantidad else 0)
    ensures d.precio == (if r.precio >= 0.0 then r.precio else 0.0)
  {
    Datos(r.id, r.nombre, MaxInt(0, r.cantidad), MaxReal(0.0, r.precio),
          GetOr(r.categoria, ""), GetOr(r.proveedor, ""), GetOr(r.fechaCreacion, ahora))
  }

  /** Reading back what `to_dict` wrote gives the same product. */
  lemma LeerEscribir(d: Datos, ahora: string)
    requires Acotado(d)
    ensures Leer(Escribir(d), ahora) == d
  {
  }

  /** Writing what `from_dict` read gives back a complete dictionary whose
      quantity and price were not negative. */
  lemma EscribirLeer(r: Registro, ahora: string)
    requires r.cantidad >= 0 && r.precio >= 0.0
    requires r.categoria.Some? && r.proveedor.Some? && r.fechaCreacion.Some?
    ensures Escribir(Leer(r, ahora)) == r
  {
  }

  class Producto {
    const id: string
    var nombre: string
    var cantidad: int
    var precio: real
    var categoria: string
    var proveedor: string
    var fechaCreacion: string

    /** Every product keeps the clamping of its constructor and setters. */
    ghost predicate Valid()
      reads this
    {
      Acotado(Snapshot())
    }

    function Snapshot(): Datos
      reads this
    {
      Datos(id, nombre, cantidad, precio, categoria, proveedor, fechaCreacion)
    }

    /** The constructor clamps a negative quantity or price to 0 and stores
        name, category and provider as given. */
    constructor (id: string, nombre: string, cantidad: int, precio: real, ahora: string,
                 categoria: string := "", proveedor: string := "")
      ensures Valid()
      ensures Snapshot() == Datos(id, nombre, MaxInt(0, cantidad), MaxReal(0.0, precio),
                                  categoria, proveedor, ahora)
    {
      this.id := id;
      this.nombre := nombre;
      this.cantidad := MaxInt(0, cantidad);
      this.precio := MaxReal(0.0, precio);
      this.categoria := categoria;
      this.proveedor := proveedor;
      fechaCreacion := ahora;
    }

    /** The `nombre` setter ignores a blank name and stores any other one
        stripped. */
    method SetNombre(nuevo: string)
      modifies this`nombre
      ensures nombre == if Text.Strip(nuevo) != [] then Text.Strip(nuevo) else old(nombre)
    {
      if Text.Strip(nuevo) != [] {
        nombre := Text.Strip(nuevo);
      }
    }

    /** The `cantidad` setter clamps a negative quantity to 0. */
    method SetCantidad(nueva: int)
      modifies this`cantidad
      ensures cantidad == MaxInt(0, nueva) && cantidad >= 0
    {
      cantidad := MaxInt(0, nueva);
    }

    /** The `precio` setter clamps a negative price to 0. */
    method SetPrecio(nuevo: real)
      modifies this`precio
      ensures precio == MaxReal(0.0, nuevo) && precio >= 0.0
    {
      precio := MaxReal(0.0, nuevo);
    }

    /** The `categoria` setter stores the stripped value, even a blank one. */
    method SetCategoria(nueva: string)
      modifies this`categoria
      ensures categoria == Text.Strip(nueva)
    {
      categoria := Text.Strip(nueva);
    }

    /** The `proveedor` setter stores the stripped value, even a blank one. */
    method SetProveedor(nuevo: string)
      modifies this`proveedor
      ensures proveedor == Text.Strip(nuevo)
    {
      proveedor := Text.Strip(nuevo);
    }

    /** `actualizar_stock`: applies the change only when the stock stays at
        least 0. */
    method ActualizarStock(cambio: int) returns (ok: bool)
      modifies this`cantidad
      ensures ok <==> old(cantidad) + cambio >= 0
      ensures cantidad == if ok then old(cantidad) + cambio else old(cantidad)
      ensures old(cantidad) >= 0 ==> cantidad >= 0
    {
      var nueva := cantidad + cambio;
      if nueva >= 0 {
        cantidad := nueva;
        return true;
      }
      return false;
    }

    /** `esta_en_stock`: since the quantity is clamped at 0, a product is
        out of stock exactly when its quantity is 0. */
    function EstaEnStock(): (r: bool)
      reads this
      ensures Valid() ==> (!r <==> cantidad == 0)
    {
      cantidad > 0
    }

    /** `to_dict`: every key is written, and `from_dict` reads the product
        back unchanged. */
    function ToDict(): (r: Registro)
      reads this
      ensures r.categoria.Some? && r.proveedor.Some? && r.fechaCreacion.Some?
      ensures forall ahora :: Valid() ==> Leer(r, ahora) == Snapshot()
    {
      Escribir(Snapshot())
    }

    /** `from_dict`: a new product with the fields `Leer` gives. */
    static method FromDict(r: Registro, ahora: string) returns (p: Producto)
      ensures fresh(p) && p.Valid() && p.Snapshot() == Leer(r, ahora)
    {
      p := new Producto(r.id, r.nombre, r.cantidad, r.precio, ahora,
                        GetOr(r.categoria, ""), GetOr(r.proveedor, ""));
      p.fechaCreacion := GetOr(r.fechaCreacion, ahora);
    }
  }

  const TipoAgregar := "AGREGAR"
  const TipoEliminar := "ELIMINAR"
  const TipoActualizarCantidad := "ACTUALIZAR_CANTIDAD"
  const TipoActualizarPrecio := "ACTUALIZAR_PRECIO"

  /** The values the `detalles` text of a history entry is formatted from. */
  datatype Detalle =
    | Agregado(nombre: string)
    | Eliminado(nombre: string)
    | CantidadCambiada(cantidadAnterior: int, cantidadNueva: int)
    | PrecioCambiado(precioAnterior: real, precioNuevo: real)

  /** One history tuple: timestamp, operation type, product id, details. */
  datatype Operacion = Operacion(marca: string, tipo: string, productoId: string, detalle: Detalle)

  /** The conditions of the list comprehensions and of the name search. */
  datatype Criterio =
    | NombreContiene(consulta: string)
    | CategoriaIgual(categoria: string)
    | StockHasta(umbral: int)

  /** Whether a product passes the test written in a `Criterio`: the
      lower-cased name contains the lower-cased query; the lower-cased
      category equals the lower-cased category asked for; the quantity is at
      most the threshold. */
  predicate Cumple(p: Producto, c: Criterio)
    reads p
  {
    match c
    case NombreContiene(q) => Text.Contains(Text.Lower(p.nombre), Text.Lower(q))
    case CategoriaIgual(cat) => Text.Lower(p.categoria) == Text.Lower(cat)
    case StockHasta(u) => p.cantidad <= u
  }

  /** The products of `s` that pass the test, in the order of `s`. */
  function Filtrar(s: seq<Producto>, c: Criterio): (r: seq<Producto>)
    reads s
    ensures |r| <= |s|
    ensures PySeq.IsSubsequence(r, s)
    ensures forall i :: 0 <= i < |r| ==> r[i] in s && Cumple(r[i], c)
    ensures forall i :: 0 <= i < |s| && Cumple(s[i], c) ==> s[i] in r
  {
    if s == [] then []
    else
      var init := Filtrar(s[..|s| - 1], c);
      assert forall i :: 0 <= i < |s| - 1 ==> s[..|s| - 1][i] == s[i];
      assert s[..|s| - 1] + [s[|s| - 1]] == s;
      PySeq.SubsequenceSnoc(init, s[..|s| - 1], s[|s| - 1]);
      assert init + [] == init;
      init + (if Cumple(s[|s| - 1], c) then [s[|s| - 1]] else [])
  }

  /** Filtering one more element of a list extends the previous result by
      that element when it meets the criterion. */
  lemma FiltrarPaso(s: seq<Producto>, i: int, c: Criterio)
    requires 0 <= i < |s|
    ensures Filtrar(s[..i + 1], c) == Filtrar(s[..i], c) + (if Cumple(s[i], c) then [s[i]] else [])
  {
    assert s[..i + 1][..i] == s[..i];
  }

  /** The empty query is in every name, so searching for it returns every
      product, in order. */
  lemma {:induction false} FiltrarConsultaVacia(s: seq<Producto>)
    ensures Filtrar(s, NombreContiene("")) == s
  {
    if s != [] {
      var init, last := s[..|s| - 1], s[|s| - 1];
      FiltrarConsultaVacia(init);
      Text.ContainsEmpty(Text.Lower(last.nombre));
      assert Cumple(last, NombreContiene(""));
      assert init + [last] == s;
    }
  }

  /** `sum(p.cantidad for p in productos)`: never negative when no
      quantity is. */
  function SumaCantidades(s: seq<Producto>): (n: int)
    reads s
    ensures (forall i :: 0 <= i < |s| ==> s[i].cantidad >= 0) ==> n >= 0
  {
    if s == [] then 0 else SumaCantidades(s[..|s| - 1]) + s[|s| - 1].cantidad
  }

  /** `len([p for p in productos if not p.esta_en_stock()])`. */
  function ContarSinStock(s: seq<Producto>): (n: nat)
    reads s
    ensures n <= |s|
  {
    if s == [] then 0 else ContarSinStock(s[..|s| - 1]) + (if s[|s| - 1].EstaEnStock() then 0 else 1)
  }

  /** With quantities never negative, the products out of stock are exactly
      those with quantity 0, that is `productos_con_stock_bajo(0)`, and the
      total number of items is not negative. */
  lemma {:induction false} SinStockEsStockBajoCero(s: seq<Producto>)
    requires forall i :: 0 <= i < |s| ==> s[i].cantidad >= 0
    ensures ContarSinStock(s) == |Filtrar(s, StockHasta(0))|
    ensures SumaCantidades(s) >= 0
    ensures SumaCantidades(s) == 0 ==> ContarSinStock(s) == |s|
  {
    if s != [] {
      SinStockEsStockBajoCero(s[..|s| - 1]);
    }
  }

  /** The counting entries of `obtener_estadisticas`. The empty inventory's
      dictionary has no `total_categorias` and `total_proveedores` keys. */
  datatype Estadisticas = Estadisticas(totalProductos: nat, totalItems: int, productosSinStock: nat,
                                       totalCategorias: Option<nat>, totalProveedores: Option<nat>)

  /** The fields of the stored products, as values. The invariants of the
      inventory are stated over this view, so that they depend on the
      products' fields and not on the heap they live in. */
  ghost function Vista(m: map<string, Producto>): (v: map<string, Datos>)
    reads m.Values
    ensures v.Keys == m.Keys
    ensures forall k :: k in m ==> v[k] == m[k].Snapshot()
  {
    map k | k in m :: m[k].Snapshot()
  }

  /** Storing a product under its id stores its fields in the view. */
  lemma VistaInsertar(m: map<string, Producto>, p: Producto)
    ensures Vista(m[p.id := p]) == Vista(m)[p.id := p.Snapshot()]
  {
  }

  /** Deleting a key deletes it from the view. */
  lemma VistaQuitar(m: map<string, Producto>, id: string)
    ensures Vista(m - {id}) == Vista(m) - {id}
  {
  }

  /** The view only depends on the stored products' fields. */
  twostate lemma VistaEstable(m: map<string, Producto>)
    requires unchanged(m.Values)
    ensures Vista(m) == old(Vista(m))
  {
  }

  /** The products stored under `ids`, in that order. */
  function Mirar(m: map<string, Producto>, ids: seq<string>): (r: seq<Producto>)
    requires forall i :: 0 <= i < |ids| ==> ids[i] in m
    ensures |r| == |ids| && forall i :: 0 <= i < |ids| ==> r[i] == m[ids[i]]
  {
    seq(|ids|, i requires 0 <= i < |ids| && ids[i] in m => m[ids[i]])
  }

  /** The product of every listed id is in the result. */
  lemma MirarCubre(m: map<string, Producto>, ids: seq<string>)
    requires forall i :: 0 <= i < |ids| ==> ids[i] in m
    ensures forall k :: k in ids ==> m[k] in Mirar(m, ids)
  {
    forall k | k in ids ensures m[k] in Mirar(m, ids) {
      var i :| 0 <= i < |ids| && ids[i] == k;
      assert Mirar(m, ids)[i] == m[k];
    }
  }

  /** The total quantity stored under the keys `ks` of the view: the
      `total_items` of `obtener_estadisticas`, summed in key order. A key
      without a product adds nothing. */
  ghost function SumaVista(v: map<string, Datos>, ks: seq<string>): int
  {
    if ks == [] then 0
    else SumaVista(v, ks[..|ks| - 1]) + (if ks[|ks| - 1] in v then v[ks[|ks| - 1]].cantidad else 0)
  }

  /** Summing the products the keys list is summing their fields in the
      view. */
  lemma {:induction false} SumaMirar(m: map<string, Producto>, ks: seq<string>)
    requires forall i :: 0 <= i < |ks| ==> ks[i] in m
    ensures SumaCantidades(Mirar(m, ks)) == SumaVista(Vista(m), ks)
  {
    if ks != [] {
      var init := ks[..|ks| - 1];
      SumaMirar(m, init);
      assert Mirar(m, ks)[..|ks| - 1] == Mirar(m, init);
    }
  }

  /** The total depends only on the quantities stored under the keys. */
  lemma {:induction false} SumaVistaIgual(v: map<string, Datos>, w: map<string, Datos>, ks: seq<string>)
    requires forall k :: k in ks ==> (k in v <==> k in w) && (k in v ==> v[k].cantidad == w[k].cantidad)
    ensures SumaVista(v, ks) == SumaVista(w, ks)
  {
    if ks != [] {
      assert forall k :: k in ks[..|ks| - 1] ==> k in ks;
      SumaVistaIgual(v, w, ks[..|ks| - 1]);
    }
  }

  /** The total of two key lists one after the other is the sum of their
      totals. */
  lemma {:induction false} SumaVistaConcat(v: map<string, Datos>, a: seq<string>, b: seq<string>)
    ensures SumaVista(v, a + b) == SumaVista(v, a) + SumaVista(v, b)
  {
    if b == [] {
      assert a + b == a;
    } else {
      assert (a + b)[..|a + b| - 1] == a + b[..|b| - 1];
      SumaVistaConcat(v, a, b[..|b| - 1]);
    }
  }

  /** A key order that holds `id` once splits around it: the keys before,
      `id` itself, and the keys after, neither of which holds `id`. */
  lemma SumaVistaPartir(v: map<string, Datos>, ks: seq<string>, id: string)
    requires PySeq.Distinct(ks) && id in ks
    ensures var i := PySeq.IndexOf(ks, id);
      && id !in ks[..i] && id !in ks[i + 1..]
      && SumaVista(v, ks) == SumaVista(v, ks[..i]) + SumaVista(v, [id]) + SumaVista(v, ks[i + 1..])
  {
    var i := PySeq.IndexOf(ks, id);
    var a, b := ks[..i], ks[i + 1..];
    assert ks == a + [id] + b;
    assert forall j :: 0 <= j < |b| ==> b[j] == ks[i + 1 + j];
    SumaVistaConcat(v, a + [id], b);
    SumaVistaConcat(v, a, [id]);
  }

  /** Storing the fields `d` of a product with a new id, last in order,
      raises the total by its quantity. */
  lemma SumaVistaAnadir(v: map<string, Datos>, ks: seq<string>, d: Datos)
    requires d.id !in ks
    ensures SumaVista(v[d.id := d], ks + [d.id]) == SumaVista(v, ks) + d.cantidad
  {
    SumaVistaIgual(v[d.id := d], v, ks);
    assert (ks + [d.id])[..|ks|] == ks;
  }

  /** Removing a stored product, and its key from a duplicate-free order,
      lowers the total by its quantity. */
  lemma SumaVistaQuitar(v: map<string, Datos>, ks: seq<string>, id: string)
    requires PySeq.Distinct(ks) && id in ks && id in v
    ensures SumaVista(v - {id}, PySeq.RemoveFirst(ks, id)) == SumaVista(v, ks) - v[id].cantidad
  {
    var i := PySeq.IndexOf(ks, id);
    var a, b := ks[..i], ks[i + 1..];
    SumaVistaPartir(v, ks, id);
    SumaVistaConcat(v - {id}, a, b);
    SumaVistaIgual(v - {id}, v, a);
    SumaVistaIgual(v - {id}, v, b);
    assert [id][..0] == [];
  }

  /** Replacing the fields of a stored product changes the total by the
      difference of the quantities. */
  lemma SumaVistaCambiar(v: map<string, Datos>, ks: seq<string>, id: string, d: Datos)
    requires PySeq.Distinct(ks) && id in ks && id in v
    ensures SumaVista(v[id := d], ks) == SumaVista(v, ks) - v[id].cantidad + d.cantidad
  {
    var i := PySeq.IndexOf(ks, id);
    var a, b := ks[..i], ks[i + 1..];
    SumaVistaPartir(v, ks, id);
    SumaVistaPartir(v[id := d], ks, id);
    SumaVistaIgual(v[id := d], v, a);
    SumaVistaIgual(v[id := d], v, b);
    assert [id][..0] == [];
  }

  /** Each product is stored under its own id and is clamped. */
  ghost predicate ClavesPropias(v: map<string, Datos>)
  {
    forall k :: k in v ==> v[k].id == k && Acotado(v[k])
  }

  /** `lista` is a valid provider list for `prov`: no duplicates, not empty,
      and every id in it is a stored product of that provider. */
  ghost predicate ListaSana(v: map<string, Datos>, lista: seq<string>, prov: string)
  {
    && prov != ""
    && lista != []
    && PySeq.Distinct(lista)
    && forall i :: 0 <= i < |lista| ==> lista[i] in v && v[lista[i]].proveedor == prov
  }

  /** Every list of the provider index is valid, and the empty provider is
      never a key. */
  ghost predicate IndiceProveedores(v: map<string, Datos>, pp: map<string, seq<string>>)
  {
    forall prov :: prov in pp ==> ListaSana(v, pp[prov], prov)
  }

  /** Every product with a provider is listed under it. */
  ghost predicate ProveedoresListados(v: map<string, Datos>, pp: map<string, seq<string>>)
  {
    forall k :: k in v && v[k].proveedor != "" ==> v[k].proveedor in pp && k in pp[v[k].proveedor]
  }

  /** Every entry of the name index points to a stored product with that
      lower-cased name. The index is not complete: a product added later
      under the same lower-cased name takes the entry over, and removing
      either one deletes it. */
  ghost predicate IndiceNombres(v: map<string, Datos>, idx: map<string, string>)
  {
    forall n :: n in idx ==> idx[n] in v && Text.Lower(v[idx[n]].nombre) == n
  }

  /** Every non-empty category of a stored product is in the category set.
      The set is not exact: categories are never removed. */
  ghost predicate CategoriasCubiertas(v: map<string, Datos>, cats: set<string>)
  {
    forall k :: k in v && v[k].categoria != "" ==> v[k].categoria in cats
  }

  /** The order is a duplicate-free list of exactly the keys. */
  ghost predicate OrdenDeClaves(v: map<string, Datos>, orden: seq<string>)
  {
    PySeq.Distinct(orden) && forall k :: k in v <==> k in orden
  }

  /** Everything the inventory keeps consistent between its dictionary and
      its auxiliary structures. */
  ghost predicate Coherente(v: map<string, Datos>, orden: seq<string>, pp: map<string, seq<string>>,
                            idx: map<string, string>, cats: set<string>)
  {
    && OrdenDeClaves(v, orden)
    && ClavesPropias(v)
    && IndiceProveedores(v, pp)
    && ProveedoresListados(v, pp)
    && IndiceNombres(v, idx)
    && CategoriasCubiertas(v, cats)
  }

  /** The provider index after `_actualizar_indices`: a non-empty provider
      gets a list (created if missing) that keeps its old entries first and
      holds the id, and stays duplicate-free; every other list is untouched. */
  function ConProveedor(pp: map<string, seq<string>>, prov: string, id: string): (r: map<string, seq<string>>)
    ensures r.Keys == pp.Keys + (if prov != "" then {prov} else {})
    ensures forall q :: q in pp && q != prov ==> r[q] == pp[q]
    ensures prov != "" ==> id in r[prov] && (prov in pp ==> pp[prov] <= r[prov])
    ensures prov != "" && (prov in pp ==> PySeq.Distinct(pp[prov])) ==> PySeq.Distinct(r[prov])
  {
    if prov == "" then pp
    else
      var anterior := if prov in pp then pp[prov] else [];
      pp[prov := if id in anterior then anterior else anterior + [id]]
  }

  /** The provider index after `_limpiar_indices`: only the provider's
      own list changes; it loses one occurrence of the id (all of them when
      it had no duplicates), and it is deleted only when the id was its
      sole entry. */
  function SinProveedor(pp: map<string, seq<string>>, prov: string, id: string): (r: map<string, seq<string>>)
    ensures r.Keys <= pp.Keys
    ensures forall q :: q in pp && q != prov ==> q in r && r[q] == pp[q]
    ensures prov in r ==> multiset(r[prov]) == multiset(pp[prov]) - multiset{id}
    ensures prov in pp && prov !in r ==> multiset(pp[prov]) == multiset{id}
    ensures prov in r && PySeq.Distinct(pp[prov]) ==> id !in r[prov] && PySeq.Distinct(r[prov])
  {
    if prov in pp && id in pp[prov] then
      var resto := PySeq.RemoveFirst(pp[prov], id);
      assert PySeq.Distinct(pp[prov]) ==> id !in resto && PySeq.Distinct(resto) by {
        if PySeq.Distinct(pp[prov]) {
          PySeq.RemoveFirstDistinct(pp[prov], id);
        }
      }
      if resto == [] then pp - {prov} else pp[prov := resto]
    else
      assert prov in pp ==> multiset(pp[prov])[id] == 0;
      pp
  }

  /** Adding a product with a new id and indexing it keeps the provider
      index sound and complete. */
  lemma AgregarConservaProveedores(v: map<string, Datos>, pp: map<string, seq<string>>, d: Datos)
    requires IndiceProveedores(v, pp) && ProveedoresListados(v, pp) && d.id !in v
    ensures IndiceProveedores(v[d.id := d], ConProveedor(pp, d.proveedor, d.id))
    ensures ProveedoresListados(v[d.id := d], ConProveedor(pp, d.proveedor, d.id))
  {
    var v', pp' := v[d.id := d], ConProveedor(pp, d.proveedor, d.id);
    if d.proveedor != "" {
      var prov := d.proveedor;
      var anterior := if prov in pp then pp[prov] else [];
      assert d.id !in anterior;
      assert pp'[prov] == anterior + [d.id];
      assert PySeq.Distinct(pp'[prov]);
    }
    assert ProveedoresListados(v', pp') by {
      forall k | k in v' && v'[k].proveedor != "" ensures v'[k].proveedor in pp' && k in pp'[v'[k].proveedor] {
        if k != d.id && v[k].proveedor != d.proveedor {
          assert pp'[v[k].proveedor] == pp[v[k].proveedor];
        }
      }
    }
  }

  /** One list of the provider index after a removal. */
  lemma QuitarListaSana(v: map<string, Datos>, pp: map<string, seq<string>>, id: string, q: string)
    requires IndiceProveedores(v, pp) && id in v
    requires q in SinProveedor(pp, v[id].proveedor, id)
    ensures ListaSana(v - {id}, SinProveedor(pp, v[id].proveedor, id)[q], q)
  {
    var prov := v[id].proveedor;
    var v', l' := v - {id}, SinProveedor(pp, prov, id)[q];
    if q == prov && id in pp[q] {
      PySeq.RemoveFirstDistinct(pp[q], id);
      assert l' == PySeq.RemoveFirst(pp[q], id);
      forall i | 0 <= i < |l'| ensures l'[i] in v' && v'[l'[i]].proveedor == q {
        assert l'[i] in pp[q];
      }
    } else {
      assert l' == pp[q];
      forall i | 0 <= i < |l'| ensures l'[i] in v' && v'[l'[i]].proveedor == q {
        assert v[l'[i]].proveedor == q;
      }
    }
  }

  /** Removing a product and un-indexing it keeps the provider index sound
      and complete; this is what makes `buscar_productos_por_proveedor` safe
      after a removal. */
  lemma QuitarConservaProveedores(v: map<string, Datos>, pp: map<string, seq<string>>, id: string)
    requires IndiceProveedores(v, pp) && ProveedoresListados(v, pp) && id in v
    ensures IndiceProveedores(v - {id}, SinProveedor(pp, v[id].proveedor, id))
    ensures ProveedoresListados(v - {id}, SinProveedor(pp, v[id].proveedor, id))
  {
    var prov := v[id].proveedor;
    var v', pp' := v - {id}, SinProveedor(pp, prov, id);
    forall q | q in pp' ensures ListaSana(v', pp'[q], q) {
      QuitarListaSana(v, pp, id, q);
    }
    forall k | k in v' && v'[k].proveedor != "" ensures v'[k].proveedor in pp' && k in pp'[v'[k].proveedor] {
      assert k in pp[v[k].proveedor];
      if v[k].proveedor == prov {
        PySeq.RemoveFirstKeeps(pp[prov], id, k);
      }
    }
  }

  /** `agregar_producto` keeps the inventory coherent: the new state
      (`v'`, `orden'`, ...) is the old one with the fields `d` of a product
      with a new id stored, appended to the order and indexed. */
  lemma AgregarConservaCoherencia(v: map<string, Datos>, orden: seq<string>, pp: map<string, seq<string>>,
                                  idx: map<string, string>, cats: set<string>, d: Datos,
                                  v': map<string, Datos>, orden': seq<string>, pp': map<string, seq<string>>,
                                  idx': map<string, string>, cats': set<string>)
    requires Coherente(v, orden, pp, idx, cats) && d.id !in v && Acotado(d)
    requires v' == v[d.id := d] && orden' == orden + [d.id]
    requires pp' == ConProveedor(pp, d.proveedor, d.id) && idx' == idx[Text.Lower(d.nombre) := d.id]
    requires cats' == cats + (if d.categoria != "" then {d.categoria} else {})
    ensures Coherente(v', orden', pp', idx', cats')
  {
    AgregarConservaProveedores(v, pp, d);
    assert d.id !in orden;
  }

  /** `eliminar_producto` keeps the inventory coherent: the new state
      (`v'`, `orden'`, ...) is the old one with `id` removed from the
      dictionary, from the order and from the indexes. */
  lemma EliminarConservaCoherencia(v: map<string, Datos>, orden: seq<string>, pp: map<string, seq<string>>,
                                   idx: map<string, string>, cats: set<string>, id: string,
                                   v': map<string, Datos>, orden': seq<string>, pp': map<string, seq<string>>,
                                   idx': map<string, string>, cats': set<string>)
    requires Coherente(v, orden, pp, idx, cats) && id in v
    requires v' == v - {id} && orden' == PySeq.RemoveFirst(orden, id)
    requires pp' == SinProveedor(pp, v[id].proveedor, id) && idx' == idx - {Text.Lower(v[id].nombre)}
    requires cats' == cats
    ensures Coherente(v', orden', pp', idx', cats')
  {
    QuitarConservaProveedores(v, pp, id);
    PySeq.RemoveFirstDistinct(orden, id);
  }

  /** Changing a stored product's quantity or price, within the clamping,
      keeps the inventory coherent: no index looks at those fields. */
  lemma CambiarConservaCoherencia(v: map<string, Datos>, orden: seq<string>, pp: map<string, seq<string>>,
                                  idx: map<string, string>, cats: set<string>, id: string, d: Datos,
                                  v': map<string, Datos>)
    requires Coherente(v, orden, pp, idx, cats) && id in v && Acotado(d)
    requires d.id == v[id].id && d.nombre == v[id].nombre
    requires d.categoria == v[id].categoria && d.proveedor == v[id].proveedor
    requires v' == v[id := d]
    ensures Coherente(v', orden, pp, idx, cats)
  {
    forall prov | prov in pp ensures ListaSana(v', pp[prov], prov) {
      assert ListaSana(v, pp[prov], prov);
    }
  }

  /** The number of distinct keys of a duplicate-free key order is its
      length: `len(self._productos)` is the length of the order. */
  lemma {:induction false} OrdenCuenta(v: map<string, Datos>, orden: seq<string>)
    requires OrdenDeClaves(v, orden)
    ensures |v| == |orden|
  {
    PySeq.DistinctCard(orden);
    assert v.Keys == set x | x in orden;
  }

  class Inventario {
    var productos: map<string, Producto>
    /** The keys of `productos` in insertion order. */
    var orden: seq<string>
    var categorias: set<string>
    var indiceNombres: map<string, string>
    var porProveedor: map<string, seq<string>>
    var historial: seq<Operacion>

    /** The indexes agree with the products: see `Coherente`. */
    ghost predicate Valid()
      reads this, productos.Values
    {
      Coherente(Vista(productos), orden, porProveedor, indiceNombres, categorias)
    }

    /** The file-loading constructor is not modelled: this is the inventory of
        a missing file. */
    constructor ()
      ensures Valid()
      ensures productos == map[] && orden == [] && historial == []
      ensures categorias == {} && indiceNombres == map[] && porProveedor == map[]
    {
      productos := map[];
      orden := [];
      categorias := {};
      indiceNombres := map[];
      porProveedor := map[];
      historial := [];
    }

    /** `self._productos.values()`, in insertion order. */
    function Valores(): seq<Producto>
      requires forall i :: 0 <= i < |orden| ==> orden[i] in productos
      reads this
    {
      Mirar(productos, orden)
    }

    /** The number of items in stock, `total_items`, summed over the view in
        insertion order. */
    ghost function TotalItems(): int
      reads this, productos.Values
    {
      SumaVista(Vista(productos), orden)
    }

    /** `_registrar_operacion`: appends one tuple to the history. */
    method RegistrarOperacion(marca: string, tipo: string, productoId: string, detalle: Detalle)
      modifies this`historial
      ensures historial == old(historial) + [Operacion(marca, tipo, productoId, detalle)]
    {
      historial := historial + [Operacion(marca, tipo, productoId, detalle)];
    }

    /** `_actualizar_indices`, on the fields `d` of the product: points the
        lower-cased name at the product, adds a non-empty category, and
        appends the id to its non-empty provider's list (creating it) unless
        it is already there. */
    method ActualizarIndices(d: Datos)
      modifies this`indiceNombres, this`categorias, this`porProveedor
      ensures indiceNombres == old(indiceNombres)[Text.Lower(d.nombre) := d.id]
      ensures categorias == old(categorias) + (if d.categoria != "" then {d.categoria} else {})
      ensures porProveedor == ConProveedor(old(porProveedor), d.proveedor, d.id)
    {
      indiceNombres := indiceNombres[Text.Lower(d.nombre) := d.id];
      if d.categoria != "" {
        categorias := categorias + {d.categoria};
      }
      if d.proveedor != "" {
        if d.proveedor !in porProveedor {
          porProveedor := porProveedor[d.proveedor := []];
        }
        if d.id !in porProveedor[d.proveedor] {
          porProveedor := porProveedor[d.proveedor := porProveedor[d.proveedor] + [d.id]];
        }
      }
    }

    /** `_limpiar_indices`, on the fields `d` of the product: deletes the
        entry of the lower-cased name (even if it now points to another
        product), and takes the id out of its provider's list, deleting the
        list once it is empty. */
    method LimpiarIndices(d: Datos)
      modifies this`indiceNombres, this`porProveedor
      ensures indiceNombres == old(indiceNombres) - {Text.Lower(d.nombre)}
      ensures porProveedor == SinProveedor(old(porProveedor), d.proveedor, d.id)
    {
      var clave := Text.Lower(d.nombre);
      if clave in indiceNombres {
        indiceNombres := indiceNombres - {clave};
      }
      QuitarDeProveedor(d.proveedor, d.id);
    }

    /** The provider half of `_limpiar_indices`. */
    method QuitarDeProveedor(prov: string, id: string)
      modifies this`porProveedor
      ensures porProveedor == SinProveedor(old(porProveedor), prov, id)
    {
      if prov in porProveedor {
        var lista := porProveedor[prov];
        if id in lista {
          var resto := PySeq.RemoveFirst(lista, id);
          if resto == [] {
            porProveedor := porProveedor - {prov};
          } else {
            porProveedor := porProveedor[prov := resto];
          }
        }
      }
    }

    /** `agregar_producto`: an id already present gives `False` and no
        change; otherwise the product is stored under its id (last in
        order), indexed, and exactly one "AGREGAR" entry is appended. */
    method AgregarProducto(producto: Producto, marca: string) returns (ok: bool)
      requires Valid() && producto.Valid()
      modifies this
      ensures Valid()
      ensures ok <==> producto.id !in old(productos)
      ensures !ok ==> unchanged(this)
      ensures ok ==>
        && productos == old(productos)[producto.id := producto]
        && orden == old(orden) + [producto.id]
        && |productos| == |old(productos)| + 1
        && historial == old(historial) + [Operacion(marca, TipoAgregar, producto.id, Agregado(producto.nombre))]
        && indiceNombres == old(indiceNombres)[Text.Lower(producto.nombre) := producto.id]
        && categorias == old(categorias) + (if producto.categoria != "" then {producto.categoria} else {})
        && porProveedor == ConProveedor(old(porProveedor), producto.proveedor, producto.id)
      ensures ok ==> TotalItems() == old(TotalItems()) + producto.cantidad
    {
      if producto.id in productos {
        return false;
      }
      ghost var v := Vista(productos);
      Insertar(producto, marca);
      VistaEstable(old(productos));
      VistaInsertar(old(productos), producto);
      AgregarConservaCoherencia(v, old(orden), old(porProveedor), old(indiceNombres), old(categorias),
                                producto.Snapshot(),
                                Vista(productos), orden, porProveedor, indiceNombres, categorias);
      SumaVistaAnadir(v, old(orden), producto.Snapshot());
      return true;
    }

    /** The changes `agregar_producto` makes once the id is known to be
        new. */
    method Insertar(producto: Producto, marca: string)
      modifies this
      ensures productos == old(productos)[producto.id := producto]
      ensures orden == old(orden) + [producto.id]
      ensures historial == old(historial) + [Operacion(marca, TipoAgregar, producto.id, Agregado(producto.nombre))]
      ensures indiceNombres == old(indiceNombres)[Text.Lower(producto.nombre) := producto.id]
      ensures categorias == old(categorias) + (if producto.categoria != "" then {producto.categoria} else {})
      ensures porProveedor == ConProveedor(old(porProveedor), producto.proveedor, producto.id)
    {
      var d := producto.Snapshot();
      productos := productos[d.id := producto];
      orden := orden + [d.id];
      ActualizarIndices(d);
      RegistrarOperacion(marca, TipoAgregar, d.id, Agregado(d.nombre));
    }

    /** `eliminar_producto`: a missing id gives `False` and no change;
        otherwise the product is un-indexed and removed, and exactly one
        "ELIMINAR" entry is appended. The category set is left as it was. */
    method EliminarProducto(id: string, marca: string) returns (ok: bool)
      requires Valid()
      modifies this
      ensures Valid()
      ensures ok <==> id in old(productos)
      ensures !ok ==> unchanged(this)
      ensures ok ==>
        && productos == old(productos) - {id}
        && id !in productos
        && |productos| == |old(productos)| - 1
        && orden == PySeq.RemoveFirst(old(orden), id)
        && historial == old(historial) + [Operacion(marca, TipoEliminar, id, Eliminado(old(productos)[id].nombre))]
        && indiceNombres == old(indiceNombres) - {Text.Lower(old(productos)[id].nombre)}
        && porProveedor == SinProveedor(old(porProveedor), old(productos)[id].proveedor, id)
        && categorias == old(categorias)
      ensures ok ==> TotalItems() == old(TotalItems()) - old(productos[id].cantidad)
    {
      if id !in productos {
        return false;
      }
      ghost var v := Vista(productos);
      Quitar(productos[id].Snapshot(), marca);
      VistaEstable(old(productos));
      VistaQuitar(old(productos), id);
      EliminarConservaCoherencia(v, old(orden), old(porProveedor), old(indiceNombres), old(categorias), id,
                                 Vista(productos), orden, porProveedor, indiceNombres, categorias);
      SumaVistaQuitar(v, old(orden), id);
      return true;
    }

    /** The changes `eliminar_producto` makes once the id is known to be
        there, given the fields `d` of the product it removes. */
    method Quitar(d: Datos, marca: string)
      modifies this
      ensures productos == old(productos) - {d.id}
      ensures orden == PySeq.RemoveFirst(old(orden), d.id)
      ensures historial == old(historial) + [Operacion(marca, TipoEliminar, d.id, Eliminado(d.nombre))]
      ensures indiceNombres == old(indiceNombres) - {Text.Lower(d.nombre)}
      ensures porProveedor == SinProveedor(old(porProveedor), d.proveedor, d.id)
      ensures categorias == old(categorias)
    {
      LimpiarIndices(d);
      productos := productos - {d.id};
      orden := PySeq.RemoveFirst(orden, d.id);
      RegistrarOperacion(marca, TipoEliminar, d.id, Eliminado(d.nombre));
    }

    /** `actualizar_cantidad`: a missing id gives `False` and no change;
        otherwise the quantity goes through the clamping setter, nothing else
        of any product changes, and one "ACTUALIZAR_CANTIDAD" entry records
        the old quantity and the value asked for. */
    method ActualizarCantidad(id: string, nueva: int, marca: string) returns (ok: bool)
      requires Valid()
      modifies this`historial, productos.Values
      ensures Valid()
      ensures ok <==> id in productos
      ensures !ok ==> historial == old(historial) && Vista(productos) == old(Vista(productos))
      ensures ok ==> Vista(productos) == old(Vista(productos))[id := old(productos[id].Snapshot()).(cantidad := MaxInt(0, nueva))]
      ensures ok ==> historial == old(historial) + [Operacion(marca, TipoActualizarCantidad, id,
                                                             CantidadCambiada(old(productos[id].cantidad), nueva))]
      ensures ok ==> TotalItems() == old(TotalItems()) - old(productos[id].cantidad) + MaxInt(0, nueva)
    {
      if id !in productos {
        return false;
      }
      ghost var v := Vista(productos);
      CambiarCantidad(id, nueva, marca);
      CambiarConservaCoherencia(v, orden, porProveedor, indiceNombres, categorias, id, productos[id].Snapshot(),
                                Vista(productos));
      SumaVistaCambiar(v, orden, id, productos[id].Snapshot());
      return true;
    }

    /** The changes `actualizar_cantidad` makes once the id is known to be
        there. */
    method CambiarCantidad(id: string, nueva: int, marca: string)
      requires id in productos && forall k :: k in productos ==> productos[k].id == k
      modifies this`historial, productos[id]
      ensures Vista(productos) == old(Vista(productos))[id := old(productos[id].Snapshot()).(cantidad := MaxInt(0, nueva))]
      ensures historial == old(historial) + [Operacion(marca, TipoActualizarCantidad, id,
                                                       CantidadCambiada(old(productos[id].cantidad), nueva))]
    {
      var producto := productos[id];
      ghost var v := Vista(productos);
      assert forall k :: k in productos && k != id ==> productos[k] != producto;
      var anterior := producto.cantidad;
      producto.SetCantidad(nueva);
      assert Vista(productos) == v[id := producto.Snapshot()];
      RegistrarOperacion(marca, TipoActualizarCantidad, id, CantidadCambiada(anterior, nueva));
    }

    /** `actualizar_precio`: like `actualizar_cantidad`, for the clamping
        price setter and an "ACTUALIZAR_PRECIO" entry. */
    method ActualizarPrecio(id: string, nuevo: real, marca: string) returns (ok: bool)
      requires Valid()
      modifies this`historial, productos.Values
      ensures Valid()
      ensures ok <==> id in productos
      ensures !ok ==> historial == old(historial) && Vista(productos) == old(Vista(productos))
      ensures ok ==> Vista(productos) == old(Vista(productos))[id := old(productos[id].Snapshot()).(precio := MaxReal(0.0, nuevo))]
      ensures ok ==> historial == old(historial) + [Operacion(marca, TipoActualizarPrecio, id,
                                                             PrecioCambiado(old(productos[id].precio), nuevo))]
    {
      if id !in productos {
        return false;
      }
      ghost var v := Vista(productos);
      CambiarPrecio(id, nuevo, marca);
      CambiarConservaCoherencia(v, orden, porProveedor, indiceNombres, categorias, id, productos[id].Snapshot(),
                                Vista(productos));
      return true;
    }

    /** The changes `actualizar_precio` makes once the id is known to be
        there. */
    method CambiarPrecio(id: string, nuevo: real, marca: string)
      requires id in productos && forall k :: k in productos ==> productos[k].id == k
      modifies this`historial, productos[id]
      ensures Vista(productos) == old(Vista(productos))[id := old(productos[id].Snapshot()).(precio := MaxReal(0.0, nuevo))]
      ensures historial == old(historial) + [Operacion(marca, TipoActualizarPrecio, id,
                                                       PrecioCambiado(old(productos[id].precio), nuevo))]
    {
      var producto := productos[id];
      ghost var v := Vista(productos);
      assert forall k :: k in productos && k != id ==> productos[k] != producto;
      var anterior := producto.precio;
      producto.SetPrecio(nuevo);
      assert Vista(productos) == v[id := producto.Snapshot()];
      RegistrarOperacion(marca, TipoActualizarPrecio, id, PrecioCambiado(anterior, nuevo));
    }

    /** Under the invariant every id of the order is stored, and there are
        as many products as ids in the order. */
    lemma OrdenEnProductos()
      requires Valid()
      ensures forall i :: 0 <= i < |orden| ==> orden[i] in productos
      ensures |productos| == |orden|
    {
      OrdenCuenta(Vista(productos), orden);
    }

    /** Under the invariant, filtering the products in insertion order keeps
        exactly the stored products that pass the test. */
    lemma FiltrarValores(c: Criterio)
      requires Valid()
      ensures forall i :: 0 <= i < |orden| ==> orden[i] in productos
      ensures forall p :: p in Filtrar(Valores(), c) ==> p in productos.Values && Cumple(p, c)
      ensures forall k :: k in productos && Cumple(productos[k], c) ==> productos[k] in Filtrar(Valores(), c)
    {
      OrdenEnProductos();
      var s, r := Valores(), Filtrar(Valores(), c);
      forall p | p in r ensures p in productos.Values && Cumple(p, c) {
        var j :| 0 <= j < |s| && s[j] == p;
        assert p == productos[orden[j]];
      }
      MirarCubre(productos, orden);
      forall k | k in productos && Cumple(productos[k], c) ensures productos[k] in r {
        assert k in Vista(productos);
        var j :| 0 <= j < |orden| && orden[j] == k;
        assert s[j] == productos[k];
      }
    }

    /** `buscar_producto_por_id`: `dict.get`; under the invariant the
        product found carries the id asked for. */
    function BuscarPorId(id: string): (r: Option<Producto>)
      reads this, productos.Values
      ensures r.Some? <==> id in productos
      ensures r.Some? ==> r.value == productos[id]
      ensures Valid() && r.Some? ==> r.value.id == id
    {
      if id in productos then Some(productos[id]) else None
    }

    /** `__contains__`: under the invariant, the ids in the order. */
    function Contiene(id: string): (r: bool)
      reads this, productos.Values
      ensures Valid() ==> (r <==> id in orden)
    {
      id in productos
    }

    /** `__len__`: under the invariant, the number of ids in the order. */
    function Len(): (n: nat)
      reads this, productos.Values
      ensures Valid() ==> n == |orden|
    {
      assert Valid() ==> |productos| == |orden| by {
        if Valid() {
          OrdenCuenta(Vista(productos), orden);
        }
      }
      |productos|
    }

    /** `buscar_productos_por_nombre`: the loop over the products in
        insertion order that keeps those whose lower-cased name contains the
        lower-cased query. */
    method BuscarPorNombre(nombre: string) returns (r: seq<Producto>)
      requires Valid()
      ensures forall i :: 0 <= i < |orden| ==> orden[i] in productos
      ensures r == Filtrar(Valores(), NombreContiene(nombre))
    {
      OrdenEnProductos();
      r := RecorrerPorNombre(nombre);
    }

    /** The loop of `buscar_productos_por_nombre`, which needs of the
        inventory only that every key in the order is stored. */
    method RecorrerPorNombre(nombre: string) returns (r: seq<Producto>)
      requires forall i :: 0 <= i < |orden| ==> orden[i] in productos
      ensures r == Filtrar(Valores(), NombreContiene(nombre))
    {
      var consulta := Text.Lower(nombre);
      ghost var s := Valores();
      ghost var c := NombreContiene(nombre);
      r := [];
      var i := 0;
      while i < |orden|
        invariant 0 <= i <= |orden|
        invariant r == Filtrar(s[..i], c)
      {
        var producto := productos[orden[i]];
        FiltrarPaso(s, i, c);
        if Text.Contains(Text.Lower(producto.nombre), consulta) {
          r := r + [producto];
        }
        i := i + 1;
      }
      assert s[..|orden|] == s;
    }

    /** What `buscar_productos_por_nombre` returns: exactly the stored
        products whose lower-cased name contains the lower-cased query, and
        for the empty query all of them, in insertion order. */
    lemma BuscarPorNombreExacto(nombre: string)
      requires Valid()
      ensures forall i :: 0 <= i < |orden| ==> orden[i] in productos
      ensures forall p :: p in Filtrar(Valores(), NombreContiene(nombre)) ==>
        p in productos.Values && Text.Contains(Text.Lower(p.nombre), Text.Lower(nombre))
      ensures forall k :: k in productos && Text.Contains(Text.Lower(productos[k].nombre), Text.Lower(nombre)) ==>
        productos[k] in Filtrar(Valores(), NombreContiene(nombre))
      ensures nombre == "" ==> Filtrar(Valores(), NombreContiene(nombre)) == Valores()
    {
      FiltrarValores(NombreContiene(nombre));
      if nombre == "" {
        FiltrarConsultaVacia(Valores());
      }
    }

    /** `buscar_productos_por_categoria`: exactly the stored products whose
        lower-cased category equals the lower-cased category asked for, in
        insertion order. */
    function BuscarPorCategoria(categoria: string): (r: seq<Producto>)
      requires Valid()
      reads this, productos.Values
      ensures forall i :: 0 <= i < |orden| ==> orden[i] in productos
      ensures PySeq.IsSubsequence(r, Valores())
      ensures forall p :: p in r ==> p in productos.Values && Text.Lower(p.categoria) == Text.Lower(categoria)
      ensures forall k :: k in productos && Text.Lower(productos[k].categoria) == Text.Lower(categoria) ==>
        productos[k] in r
    {
      FiltrarValores(CategoriaIgual(categoria));
      Filtrar(Valores(), CategoriaIgual(categoria))
    }

    /** `productos_con_stock_bajo` (default threshold 5): exactly the stored
        products whose quantity is at most the threshold, in insertion
        order. */
    function ProductosConStockBajo(umbral: int := 5): (r: seq<Producto>)
      requires Valid()
      reads this, productos.Values
      ensures forall i :: 0 <= i < |orden| ==> orden[i] in productos
      ensures PySeq.IsSubsequence(r, Valores())
      ensures forall p :: p in r ==> p in productos.Values && p.cantidad <= umbral
      ensures forall k :: k in productos && productos[k].cantidad <= umbral ==> productos[k] in r
    {
      FiltrarValores(StockHasta(umbral));
      Filtrar(Valores(), StockHasta(umbral))
    }

    /** `obtener_todos_productos`: every stored product once, in insertion
        order. */
    function ObtenerTodos(): (r: seq<Producto>)
      requires Valid()
      reads this, productos.Values
      ensures |r| == |productos|
      ensures forall p :: p in r ==> p in productos.Values
      ensures forall k :: k in productos ==> productos[k] in r
    {
      OrdenEnProductos();
      MirarCubre(productos, orden);
      assert forall k :: k in productos ==> k in Vista(productos);
      Valores()
    }

    /** `obtener_categorias`: a copy of the category set, which holds every
        non-empty category of a stored product. */
    function ObtenerCategorias(): (r: set<string>)
      reads this, productos.Values
      ensures Valid() ==> forall k :: k in productos && productos[k].categoria != "" ==> productos[k].categoria in r
    {
      categorias
    }

    /** `obtener_proveedores`: the keys of the provider index, which under
        the invariant are exactly the non-empty providers of the stored
        products. */
    function ObtenerProveedores(): (r: set<string>)
      requires Valid()
      reads this, productos.Values
      ensures forall prov :: prov in r <==> prov != "" && exists k :: k in productos && productos[k].proveedor == prov
    {
      ProveedoresExactos();
      porProveedor.Keys
    }

    lemma ProveedoresExactos()
      requires Valid()
      ensures forall prov :: prov in porProveedor <==>
        prov != "" && exists k :: k in productos && productos[k].proveedor == prov
    {
      var v := Vista(productos);
      forall prov | prov in porProveedor
        ensures prov != "" && exists k :: k in productos && productos[k].proveedor == prov
      {
        assert ListaSana(v, porProveedor[prov], prov);
        var k := porProveedor[prov][0];
        assert k in productos && productos[k].proveedor == prov;
      }
      forall prov | prov != "" && exists k :: k in productos && productos[k].proveedor == prov
        ensures prov in porProveedor
      {
        var k :| k in productos && productos[k].proveedor == prov;
        assert k in v && v[k].proveedor == prov;
      }
    }

    /** `buscar_productos_por_proveedor`: the products listed under the
        provider, in the order they were listed. Under the invariant every
        listed id is stored (so the lookup is safe), the result holds each
        stored product of that provider exactly once, and nothing else. */
    function BuscarPorProveedor(proveedor: string): (r: seq<Producto>)
      requires Valid()
      reads this, productos.Values
      ensures forall i :: 0 <= i < |r| ==> r[i] in productos.Values && r[i].proveedor == proveedor
      ensures forall k :: k in productos && productos[k].proveedor == proveedor && proveedor != "" ==> productos[k] in r
      ensures forall i, j :: 0 <= i < j < |r| ==> r[i] != r[j]
      ensures proveedor == "" ==> r == []
    {
      ProveedoresExactos();
      if proveedor in porProveedor then
        ListaProveedor(proveedor);
        MirarCubre(productos, porProveedor[proveedor]);
        Mirar(productos, porProveedor[proveedor])
      else []
    }

    /** Under the invariant, the list of a provider holds stored ids of that
        provider without repetition, and each of its products once. */
    lemma ListaProveedor(proveedor: string)
      requires Valid() && proveedor in porProveedor
      ensures proveedor != ""
      ensures forall i :: 0 <= i < |porProveedor[proveedor]| ==>
        porProveedor[proveedor][i] in productos && productos[porProveedor[proveedor][i]].proveedor == proveedor
      ensures forall i, j :: 0 <= i < j < |porProveedor[proveedor]| ==>
        productos[porProveedor[proveedor][i]] != productos[porProveedor[proveedor][j]]
      ensures forall k :: k in productos && productos[k].proveedor == proveedor ==> k in porProveedor[proveedor]
    {
      var v, lista := Vista(productos), porProveedor[proveedor];
      assert ListaSana(v, lista, proveedor);
      forall i, j | 0 <= i < j < |lista|
        ensures productos[lista[i]] != productos[lista[j]]
      {
        assert v[lista[i]].id == lista[i] && v[lista[j]].id == lista[j];
      }
      forall k | k in productos && productos[k].proveedor == proveedor ensures k in lista {
        assert k in v && v[k].proveedor == proveedor;
      }
    }

    /** The counting entries of `obtener_estadisticas`: the number of
        products, the sum of their quantities (never negative), the products
        out of stock (those at quantity 0, so all of them when there are no
        items), and, once there are products, the sizes of the category set
        and of the provider index. */
    function ObtenerEstadisticas(): (e: Estadisticas)
      requires Valid()
      reads this, productos.Values
      ensures forall i :: 0 <= i < |orden| ==> orden[i] in productos
      ensures e.totalProductos == |productos|
      ensures e.totalItems == SumaCantidades(Valores()) == TotalItems()
      ensures e.totalItems >= 0
      ensures e.productosSinStock == |ProductosConStockBajo(0)| <= e.totalProductos
      ensures e.totalItems == 0 ==> e.productosSinStock == e.totalProductos
      ensures e.totalCategorias.Some? <==> productos != map[]
      ensures e.totalCategorias.Some? ==> e.totalCategorias == Some(|categorias|) && e.totalProveedores == Some(|porProveedor|)
      ensures e.totalCategorias.None? ==> e.totalProveedores.None?
    {
      OrdenEnProductos();
      var s := Valores();
      CantidadesNoNegativas();
      SinStockEsStockBajoCero(s);
      SumaMirar(productos, orden);
      if |s| == 0 then
        Estadisticas(0, 0, 0, None, None)
      else
        Estadisticas(|s|, SumaCantidades(s), ContarSinStock(s), Some(|categorias|), Some(|porProveedor|))
    }

    lemma CantidadesNoNegativas()
      requires Valid()
      ensures forall i :: 0 <= i < |orden| ==> orden[i] in productos
      ensures forall i :: 0 <= i < |orden| ==> Valores()[i].cantidad >= 0
    {
      OrdenEnProductos();
      forall i | 0 <= i < |orden| ensures Valores()[i].cantidad >= 0 {
        assert orden[i] in Vista(productos);
      }
    }

    /** `obtener_historial_operaciones` (default limit 50): the slice
        `historial[-limite:]`. A positive limit gives the last
        `min(limite, n)` entries; a limit of 0 gives the whole history; a
        negative limit drops the first `-limite` entries. */
    function Historial(limite: int := 50): (r: seq<Operacion>)
      reads this
      ensures limite > 0 ==> r == historial[|historial| - (if limite <= |historial| then limite else |historial|)..]
      ensures limite == 0 ==> r == historial
      ensures limite < 0 ==> r == historial[(if -limite <= |historial| then -limite else |historial|)..]
    {
      PySeq.SliceFrom(historial, -limite)
    }
  }
}
