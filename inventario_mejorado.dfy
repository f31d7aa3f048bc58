/**
 * The validated console inventory (gestion-inventarios-mejorado.py): a list of
 * product objects whose setters refuse bad values, and an inventory whose
 * mutations try to save the whole list and undo the in-memory change when the
 * save fails. The save itself (backup, temporary file, rename) is not
 * modelled: each mutation takes its outcome as the parameter `guardado`.
 */
module InventarioMejorado {
  import opened Wrappers
  import Text
  import PySeq

  /** The three mutable fields of a product. */
  datatype Campos = Campos(nombre: string, cantidad: int, precio: real)

  /** What `agregar_producto` checks before inserting, and what the setters
      keep: a name that is not blank, a quantity of at least 0 and a price
      above 0. */
  predicate Valido(c: Campos)
  {
    Text.Strip(c.nombre) != [] && c.cantidad >= 0 && c.precio > 0.0
  }

  /** `set_nombre` on the fields: `None` is the `ValueError` for a blank name. */
  function ConNombre(c: Campos, nombre: string): Option<Campos>
  {
    if Text.Strip(nombre) != [] then Some(c.(nombre := Text.Strip(nombre))) else None
  }

  /** `set_cantidad` on the fields: `None` is the `ValueError` for a negative
      quantity. */
  function ConCantidad(c: Campos, cantidad: int): Option<Campos>
  {
    if cantidad >= 0 then Some(c.(cantidad := cantidad)) else None
  }

  /** `set_precio` on the fields: `None` is the `ValueError` for a price that is
      not above 0. */
  function ConPrecio(c: Campos, precio: real): Option<Campos>
  {
    if precio > 0.0 then Some(c.(precio := precio)) else None
  }

  /** The `try` block of `actualizar_producto`: applies the setters of the
      fields that are given, in the order name, quantity, price, and stops at
      the first one that raises. The fields already set stay set: every
      field ends up either as it was or with its given (stripped) value, and
      the price, set last, is never changed by a call that fails. */
  function Asignar(c: Campos, nombre: Option<string>, cantidad: Option<int>, precio: Option<real>)
    : (r: (Campos, bool))
    ensures r.1 <==> && (nombre.Some? ==> Text.Strip(nombre.value) != [])
                     && (cantidad.Some? ==> cantidad.value >= 0)
                     && (precio.Some? ==> precio.value > 0.0)
    ensures r.1 ==> r.0 == Campos(if nombre.Some? then Text.Strip(nombre.value) else c.nombre,
                                  if cantidad.Some? then cantidad.value else c.cantidad,
                                  if precio.Some? then precio.value else c.precio)
    ensures r.0.nombre == c.nombre || (nombre.Some? && r.0.nombre == Text.Strip(nombre.value))
    ensures r.0.cantidad == c.cantidad || (cantidad.Some? && r.0.cantidad == cantidad.value)
    ensures !r.1 ==> r.0.precio == c.precio
    // A refused name stops everything: nothing is set.
    ensures nombre.Some? && Text.Strip(nombre.value) == [] ==> r == (c, false)
    // An accepted name stays set, whatever the later setters do.
    ensures nombre.Some? && Text.Strip(nombre.value) != [] ==> r.0.nombre == Text.Strip(nombre.value)
    // Past the name, an accepted quantity stays set, and a refused one stops
    // before the price, keeping the name already set.
    ensures (nombre.None? || Text.Strip(nombre.value) != []) && cantidad.Some? && cantidad.value >= 0 ==>
      r.0.cantidad == cantidad.value
    ensures (nombre.None? || Text.Strip(nombre.value) != []) && cantidad.Some? && cantidad.value < 0 ==>
      && !r.1
      && r.0 == c.(nombre := if nombre.Some? then Text.Strip(nombre.value) else c.nombre)
    // A refused price keeps the name and the quantity already set.
    ensures (nombre.None? || Text.Strip(nombre.value) != []) && (cantidad.None? || cantidad.value >= 0)
            && precio.Some? && precio.value <= 0.0 ==>
      && !r.1
      && r.0 == Campos(if nombre.Some? then Text.Strip(nombre.value) else c.nombre,
                       if cantidad.Some? then cantidad.value else c.cantidad,
                       c.precio)
  {
    var n := if nombre.Some? then ConNombre(c, nombre.value) else Some(c);
    if n.None? then (c, false) else
    var q := if cantidad.Some? then ConCantidad(n.value, cantidad.value) else Some(n.value);
    if q.None? then (n.value, false) else
    var p := if precio.Some? then ConPrecio(q.value, precio.value) else Some(q.value);
    if p.None? then (q.value, false) else (p.value, true)
  }

  /** The rollback after a failed save: calls the three setters again with the
      saved values, so it is subject to the same checks (and the name is
      stripped again). Saved values that pass the checks come back, the name
      stripped; a blank saved name stops it before anything is restored. */
  function Restaurar(c: Campos, original: Campos): (r: Campos)
    ensures Valido(original) ==> r == Campos(Text.Strip(original.nombre), original.cantidad, original.precio)
    ensures Text.Strip(original.nombre) == [] ==> r == c
  {
    Asignar(c, Some(original.nombre), Some(original.cantidad), Some(original.precio)).0
  }

  /** The outcome of `actualizar_producto` on the fields of the product with
      that id: the new fields and the returned flag. The flag is true exactly
      when the setters and the save all succeed, and only a failed save rolls
      back: a refused value leaves the setters' partial work in place. */
  function Actualizar(original: Campos, nombre: Option<string>, cantidad: Option<int>,
                      precio: Option<real>, guardado: bool): (r: (Campos, bool))
    ensures r.1 <==> guardado && Asignar(original, nombre, cantidad, precio).1
    ensures r.1 || !Asignar(original, nombre, cantidad, precio).1 ==>
      r.0 == Asignar(original, nombre, cantidad, precio).0
  {
    var (c, ok) := Asignar(original, nombre, cantidad, precio);
    if !ok then (c, false)
    else if guardado then (c, true)
    else (Restaurar(c, original), false)
  }

  /** The update succeeds exactly when every given value passes its setter's
      check and the save succeeds; it then changes exactly the given fields. */
  lemma ActualizarExito(original: Campos, nombre: Option<string>, cantidad: Option<int>,
                        precio: Option<real>, guardado: bool)
    ensures var (c, ok) := Actualizar(original, nombre, cantidad, precio, guardado);
      && (ok <==> guardado
                  && (nombre.Some? ==> Text.Strip(nombre.value) != [])
                  && (cantidad.Some? ==> cantidad.value >= 0)
                  && (precio.Some? ==> precio.value > 0.0))
      && (ok ==> && c.nombre == (if nombre.Some? then Text.Strip(nombre.value) else original.nombre)
                 && c.cantidad == (if cantidad.Some? then cantidad.value else original.cantidad)
                 && c.precio == (if precio.Some? then precio.value else original.precio))
  {
  }

  /** A failed save restores the saved quantity and price and the saved name
      as `set_nombre` stores it, that is stripped; when the saved name was
      already stripped, the product is exactly as before. */
  lemma ActualizarRollback(original: Campos, nombre: Option<string>, cantidad: Option<int>,
                           precio: Option<real>)
    requires Valido(original)
    requires Asignar(original, nombre, cantidad, precio).1
    ensures var (c, ok) := Actualizar(original, nombre, cantidad, precio, false);
      && !ok
      && c == Campos(Text.Strip(original.nombre), original.cantidad, original.precio)
      && (Text.Strip(original.nombre) == original.nombre ==> c == original)
  {
  }

  /** A value refused by a later setter makes the update return `False` but
      does not undo the setters that already ran: here the new name stays. */
  lemma ValidacionSinRollback(original: Campos, nombre: string, cantidad: int,
                              precio: Option<real>, guardado: bool)
    requires Text.Strip(nombre) != [] && cantidad < 0
    ensures var (c, ok) := Actualizar(original, Some(nombre), Some(cantidad), precio, guardado);
      !ok && c == original.(nombre := Text.Strip(nombre))
  {
  }

  /** A refused price makes the update return `False` but keeps the name and
      the quantity already set; the save and the rollback never run. */
  lemma PrecioRechazadoSinRollback(original: Campos, nombre: Option<string>, cantidad: Option<int>,
                                   precio: real, guardado: bool)
    requires nombre.None? || Text.Strip(nombre.value) != []
    requires cantidad.None? || cantidad.value >= 0
    requires precio <= 0.0
    ensures Actualizar(original, nombre, cantidad, Some(precio), guardado)
            == (Campos(if nombre.Some? then Text.Strip(nombre.value) else original.nombre,
                       if cantidad.Some? then cantidad.value else original.cantidad,
                       original.precio), false)
  {
  }

  /** A refused name stops the update before any setter has changed
      anything: the product is as before and the result is `False`. */
  lemma NombreRechazadoSinCambios(original: Campos, nombre: string, cantidad: Option<int>,
                                  precio: Option<real>, guardado: bool)
    requires Text.Strip(nombre) == []
    ensures Actualizar(original, Some(nombre), cantidad, precio, guardado) == (original, false)
  {
  }

  /** The setters only ever store valid values. */
  lemma AsignarConservaValido(c: Campos, nombre: Option<string>, cantidad: Option<int>,
                              precio: Option<real>)
    requires Valido(c)
    ensures Valido(Asignar(c, nombre, cantidad, precio).0)
  {
    if nombre.Some? && ConNombre(c, nombre.value).Some? {
      ConNombreValido(c, nombre.value);
    }
  }

  /** `set_nombre` stores a name that is already stripped and not blank. */
  lemma ConNombreValido(c: Campos, nombre: string)
    requires Valido(c) && ConNombre(c, nombre).Some?
    ensures Valido(ConNombre(c, nombre).value)
  {
    Text.StripIdempotent(nombre);
  }

  /** Whatever the outcome, an update keeps a valid product valid. */
  lemma ActualizarConservaValido(original: Campos, nombre: Option<string>, cantidad: Option<int>,
                                 precio: Option<real>, guardado: bool)
    requires Valido(original)
    ensures Valido(Actualizar(original, nombre, cantidad, precio, guardado).0)
  {
    AsignarConservaValido(original, nombre, cantidad, precio);
    var c := Asignar(original, nombre, cantidad, precio).0;
    AsignarConservaValido(c, Some(original.nombre), Some(original.cantidad), Some(original.precio));
  }

  /** The rollback as written does not give back a name with surrounding
      spaces: a product stored as " A" comes back as "A". */
  lemma RollbackStripsName()
    ensures Actualizar(Campos(" A", 1, 1.0), Some("B"), None, None, false).0.nombre == "A"
  {
    var t := Text.Strip(" A");
    var i, j :| Text.CutAt(" A", i, j) && t == " A"[i..j];
    assert !Text.IsSpace('A');
    assert i == 1 && j == 2;
    var b := Text.Strip("B");
    var i', j' :| Text.CutAt("B", i', j') && b == "B"[i'..j'];
    assert !Text.IsSpace('B');
    assert i' == 0 && j' == 1;
  }

  /** The rollback the failed-save branch is meant to perform: put back the
      three saved values as they were. The flag is the code's, and a failed
      save gives back the saved fields unchanged. */
  function ActualizarExacto(original: Campos, nombre: Option<string>, cantidad: Option<int>,
                            precio: Option<real>, guardado: bool): (r: (Campos, bool))
    ensures r.1 <==> guardado && Asignar(original, nombre, cantidad, precio).1
    ensures r.1 || !Asignar(original, nombre, cantidad, precio).1 ==>
      r.0 == Asignar(original, nombre, cantidad, precio).0
    ensures !guardado && Asignar(original, nombre, cantidad, precio).1 ==> r.0 == original
  {
    var (c, ok) := Asignar(original, nombre, cantidad, precio);
    if !ok then (c, false)
    else if guardado then (c, true)
    else (original, false)
  }

  /** With the exact rollback, a failed save always leaves the product as it
      was before the call, and a successful one agrees with the code. */
  lemma ActualizarExactoRestaura(original: Campos, nombre: Option<string>, cantidad: Option<int>,
                                 precio: Option<real>, guardado: bool)
    requires Asignar(original, nombre, cantidad, precio).1
    ensures !guardado ==> ActualizarExacto(original, nombre, cantidad, precio, guardado) == (original, false)
    ensures guardado ==> ActualizarExacto(original, nombre, cantidad, precio, guardado)
                         == Actualizar(original, nombre, cantidad, precio, guardado)
  {
  }

  class Producto {
    const id: string
    var nombre: string
    var cantidad: int
    var precio: real
    var fechaCreacion: string

    /** The constructor checks nothing; the inventory checks on insertion. */
    constructor (id: string, nombre: string, cantidad: int, precio: real, ahora: string)
      ensures this.id == id && Fields() == Campos(nombre, cantidad, precio)
      ensures fechaCreacion == ahora
    {
      this.id := id;
      this.nombre := nombre;
      this.cantidad := cantidad;
      this.precio := precio;
      fechaCreacion := ahora;
    }

    function Fields(): Campos
      reads this
    {
      Campos(nombre, cantidad, precio)
    }

    /** `set_nombre`: `ok == false` is the `ValueError` raised for a blank
        name, and then the name is unchanged; otherwise the stripped name is
        stored. */
    method SetNombre(nombre: string) returns (ok: bool)
      modifies this`nombre
      ensures ok <==> Text.Strip(nombre) != []
      ensures this.nombre == if ok then Text.Strip(nombre) else old(this.nombre)
    {
      var limpio := Text.Strip(nombre);
      if limpio != [] {
        this.nombre := limpio;
        return true;
      }
      return false;
    }

    /** `set_cantidad`: refuses a negative quantity, leaving it unchanged. */
    method SetCantidad(cantidad: int) returns (ok: bool)
      modifies this`cantidad
      ensures ok <==> cantidad >= 0
      ensures this.cantidad == if ok then cantidad else old(this.cantidad)
    {
      if cantidad >= 0 {
        this.cantidad := cantidad;
        return true;
      }
      return false;
    }

    /** `set_precio`: refuses a price that is not above 0, leaving it
        unchanged. */
    method SetPrecio(precio: real) returns (ok: bool)
      modifies this`precio
      ensures ok <==> precio > 0.0
      ensures this.precio == if ok then precio else old(this.precio)
    {
      if precio > 0.0 {
        this.precio := precio;
        return true;
      }
      return false;
    }
  }

  /** The ids of a list of products, in order. */
  function IdsOf(s: seq<Producto>): (ids: seq<string>)
    ensures |ids| == |s| && forall i :: 0 <= i < |s| ==> ids[i] == s[i].id
  {
    seq(|s|, i requires 0 <= i < |s| => s[i].id)
  }

  /** The test of `buscar_por_nombre` for an already lower-cased and stripped
      query. */
  predicate NombreContiene(p: Producto, consulta: string)
    reads p
  {
    Text.Contains(Text.Lower(p.nombre), consulta)
  }

  /** The list comprehension of `buscar_por_nombre`, in list order. */
  function FiltrarPorNombre(s: seq<Producto>, consulta: string): (r: seq<Producto>)
    reads s
    ensures |r| <= |s|
    ensures PySeq.IsSubsequence(r, s)
    ensures forall i :: 0 <= i < |r| ==> r[i] in s && NombreContiene(r[i], consulta)
    ensures forall i :: 0 <= i < |s| && NombreContiene(s[i], consulta) ==> s[i] in r
  {
    if s == [] then []
    else
      var resto := FiltrarPorNombre(s[1..], consulta);
      assert [s[0]] + s[1..] == s;
      PySeq.SubsequenceCons(s[0], resto, s[1..]);
      assert [] + resto == resto;
      (if NombreContiene(s[0], consulta) then [s[0]] else []) + resto
  }

  /** The list comprehension of `obtener_productos_bajo_stock`, in list order. */
  function FiltrarBajoStock(s: seq<Producto>, umbral: int): (r: seq<Producto>)
    reads s
    ensures |r| <= |s|
    ensures PySeq.IsSubsequence(r, s)
    ensures forall i :: 0 <= i < |r| ==> r[i] in s && r[i].cantidad <= umbral
    ensures forall i :: 0 <= i < |s| && s[i].cantidad <= umbral ==> s[i] in r
  {
    if s == [] then []
    else
      var resto := FiltrarBajoStock(s[1..], umbral);
      assert [s[0]] + s[1..] == s;
      PySeq.SubsequenceCons(s[0], resto, s[1..]);
      assert [] + resto == resto;
      (if s[0].cantidad <= umbral then [s[0]] else []) + resto
  }

  /** The ids left after removing position `k`. */
  lemma RemovedIds(s: seq<Producto>, k: int)
    requires 0 <= k < |s|
    ensures IdsOf(s[..k] + s[k + 1..]) == IdsOf(s)[..k] + IdsOf(s)[k + 1..]
  {
  }

  /** What `eliminar_producto` does to a list with unique ids when the first
      product with id `id` sits at position `i`: `list.remove` takes out exactly
      that position, and appending the product again restores the same
      products with unique ids. */
  lemma EliminarEn(s: seq<Producto>, id: string, i: int) returns (r: seq<Producto>)
    requires PySeq.Distinct(IdsOf(s))
    requires 0 <= i < |s| && s[i].id == id
    requires forall k :: 0 <= k < i ==> s[k].id != id
    ensures PySeq.IndexOf(IdsOf(s), id) == i
    ensures r == s[..i] + s[i + 1..] == PySeq.RemoveFirst(s, s[i])
    ensures PySeq.Distinct(IdsOf(r)) && id !in IdsOf(r)
    ensures PySeq.Distinct(IdsOf(r + [s[i]]))
    ensures multiset(r) == multiset(s) - multiset{s[i]}
    ensures multiset(r + [s[i]]) == multiset(s)
  {
    var ids := IdsOf(s);
    assert ids[i] == id && id !in ids[..i];
    PySeq.IndexOfIs(ids, id, i);
    assert s[i] !in s[..i];
    PySeq.IndexOfIs(s, s[i], i);
    r := s[..i] + s[i + 1..];
    RemovedIds(s, i);
    PySeq.DistinctCut(ids, i);
    assert IdsOf(r + [s[i]]) == IdsOf(r) + [id];
    assert s == s[..i] + [s[i]] + s[i + 1..];
  }

  /** Every product of the list passes the insertion checks. */
  ghost predicate TodosValidos(s: seq<Producto>)
    reads s
  {
    forall p :: p in s ==> Valido(p.Fields())
  }

  class Inventario {
    var productos: seq<Producto>

    function Ids(): seq<string>
      reads this
    {
      IdsOf(productos)
    }

    /** Ids are unique and every stored product passes the insertion checks. */
    ghost predicate Valid()
      reads this, productos
    {
      PySeq.Distinct(Ids()) && TodosValidos(productos)
    }

    /** The file-loading constructor is not modelled: this is the inventory of
        a missing or empty file. */
    constructor ()
      ensures Valid() && productos == []
    {
      productos := [];
    }

    /** `agregar_producto`: refuses a duplicate id, a blank name, a negative
        quantity and a price that is not above 0, leaving the list unchanged;
        otherwise appends the product and saves, and removes it again when the
        save fails, which gives back the list as it was. */
    method AgregarProducto(producto: Producto, guardado: bool) returns (ok: bool)
      requires Valid()
      modifies this`productos
      ensures Valid()
      ensures ok <==> producto.id !in old(Ids()) && Valido(producto.Fields()) && guardado
      ensures productos == if ok then old(productos) + [producto] else old(productos)
    {
      if producto.id in Ids() {
        return false;
      }
      if Text.Strip(producto.nombre) == [] {
        return false;
      }
      if producto.cantidad < 0 {
        return false;
      }
      if producto.precio <= 0.0 {
        return false;
      }
      assert producto !in productos by {
        forall i | 0 <= i < |productos| ensures productos[i] != producto {
          assert Ids()[i] == productos[i].id;
        }
      }
      productos := productos + [producto];
      if guardado {
        assert Ids() == old(Ids()) + [producto.id];
        return true;
      }
      PySeq.RemoveAppended(old(productos), producto);
      productos := PySeq.RemoveFirst(productos, producto);
      return false;
    }

    /** `eliminar_producto`: a missing id gives `False` and no change;
        otherwise the product is removed and the list saved, and when the save
        fails the product is appended again: the same products, though the
        restored one now comes last. */
    method EliminarProducto(id: string, guardado: bool) returns (ok: bool)
      requires Valid()
      modifies this`productos
      ensures Valid()
      ensures ok <==> id in old(Ids()) && guardado
      ensures id !in old(Ids()) ==> productos == old(productos)
      ensures id in old(Ids()) && guardado ==>
        var k := PySeq.IndexOf(old(Ids()), id);
        && productos == old(productos)[..k] + old(productos)[k + 1..]
        && multiset(productos) == multiset(old(productos)) - multiset{old(productos)[k]}
      ensures id in old(Ids()) && !guardado ==>
        var k := PySeq.IndexOf(old(Ids()), id);
        && productos == old(productos)[..k] + old(productos)[k + 1..] + [old(productos)[k]]
        && multiset(productos) == multiset(old(productos))
    {
      var i := Posicion(id);
      if i == |productos| {
        return false;
      }
      ghost var antes := productos;
      ghost var resto := EliminarEn(antes, id, i);
      QuitarEn(i, guardado);
      assert productos == if guardado then resto else resto + [antes[i]];
      return guardado;
    }

    /** The search loop of `eliminar_producto` and `actualizar_producto`: the
        position of the first product with that id, or the length of the list
        when there is none. */
    method Posicion(id: string) returns (i: nat)
      ensures i <= |productos|
      ensures i == |productos| <==> id !in Ids()
      ensures i < |productos| ==> productos[i].id == id && i == PySeq.IndexOf(Ids(), id)
      ensures forall k :: 0 <= k < i ==> productos[k].id != id
    {
      i := 0;
      while i < |productos| && productos[i].id != id
        invariant 0 <= i <= |productos|
        invariant forall k :: 0 <= k < i ==> productos[k].id != id
      {
        i := i + 1;
      }
      if i == |productos| {
        assert id !in Ids() by {
          forall k | 0 <= k < |productos| ensures Ids()[k] != id {
            assert Ids()[k] == productos[k].id;
          }
        }
      } else {
        assert Ids()[i] == id && id !in Ids()[..i];
        PySeq.IndexOfIs(Ids(), id, i);
      }
    }

    /** The branch of `eliminar_producto` that found the product at position
        `i`: `list.remove` of that product, the save, and the re-append when
        the save fails. */
    method QuitarEn(i: nat, guardado: bool)
      requires Valid() && i < |productos|
      requires forall k :: 0 <= k < i ==> productos[k].id != productos[i].id
      modifies this`productos
      ensures Valid()
      ensures guardado ==> productos == old(productos)[..i] + old(productos)[i + 1..]
      ensures !guardado ==> productos == old(productos)[..i] + old(productos)[i + 1..] + [old(productos)[i]]
    {
      var eliminado := productos[i];
      ghost var resto := EliminarEn(productos, eliminado.id, i);
      PySeq.RemoveFirstSubset(productos, eliminado);
      productos := PySeq.RemoveFirst(productos, eliminado);
      if !guardado {
        productos := productos + [eliminado];
      }
    }

    /** `actualizar_producto`: the product with that id gets the fields given
        by `Actualizar`, which models the setter checks, the save and the
        rollback; the list and every other product are untouched, and a
        missing id gives `False`. */
    method ActualizarProducto(id: string, nombre: Option<string>, cantidad: Option<int>,
                              precio: Option<real>, guardado: bool) returns (ok: bool)
      requires Valid()
      modifies productos
      ensures Valid()
      ensures productos == old(productos)
      ensures id !in Ids() ==> !ok
      ensures id in Ids() ==> var p := productos[PySeq.IndexOf(Ids(), id)];
        (p.Fields(), ok) == Actualizar(old(p.Fields()), nombre, cantidad, precio, guardado)
      ensures forall q :: q in productos && (id !in Ids() || q != productos[PySeq.IndexOf(Ids(), id)]) ==>
        q.Fields() == old(q.Fields())
      ensures forall q :: q in productos ==> q.fechaCreacion == old(q.fechaCreacion)
    {
      var i := Posicion(id);
      if i == |productos| {
        return false;
      }
      var p := productos[i];
      assert forall k :: 0 <= k < |productos| && k != i ==> productos[k] != p by {
        forall k | 0 <= k < |productos| && k != i ensures productos[k] != p {
          assert Ids()[k] != Ids()[i];
        }
      }
      ActualizarConservaValido(p.Fields(), nombre, cantidad, precio, guardado);
      ok := ActualizarCampos(p, nombre, cantidad, precio, guardado);
    }

    /** `buscar_por_nombre`: a blank query gives no products; otherwise the
        products whose lower-cased name contains the lower-cased, stripped
        query, in list order. */
    function BuscarPorNombre(nombre: string): (r: seq<Producto>)
      reads this, productos
      ensures Text.Strip(nombre) == [] ==> r == []
      ensures PySeq.IsSubsequence(r, productos)
      ensures forall i :: 0 <= i < |r| ==> r[i] in productos && NombreContiene(r[i], Text.Strip(Text.Lower(nombre)))
      ensures Text.Strip(nombre) != [] ==>
        forall i :: 0 <= i < |productos| && NombreContiene(productos[i], Text.Strip(Text.Lower(nombre))) ==> productos[i] in r
    {
      if Text.Strip(nombre) == [] then [] else FiltrarPorNombre(productos, Text.Strip(Text.Lower(nombre)))
    }

    /** `buscar_por_id`: the first product with that id, or `None`. */
    method BuscarPorId(id: string) returns (r: Option<Producto>)
      ensures r.Some? <==> id in Ids()
      ensures r.Some? ==> r.value == productos[PySeq.IndexOf(Ids(), id)]
    {
      var i := 0;
      while i < |productos|
        invariant 0 <= i <= |productos|
        invariant forall k :: 0 <= k < i ==> productos[k].id != id
      {
        if productos[i].id == id {
          assert Ids()[i] == id && id !in Ids()[..i];
          PySeq.IndexOfIs(Ids(), id, i);
          return Some(productos[i]);
        }
        i := i + 1;
      }
      return None;
    }

    /** `obtener_productos_bajo_stock`: the products whose quantity is at most
        the threshold (5 by default), in list order. */
    function ObtenerProductosBajoStock(umbral: int := 5): (r: seq<Producto>)
      reads this, productos
      ensures PySeq.IsSubsequence(r, productos)
      ensures forall i :: 0 <= i < |r| ==> r[i] in productos && r[i].cantidad <= umbral
      ensures forall i :: 0 <= i < |productos| && productos[i].cantidad <= umbral ==> productos[i] in r
    {
      FiltrarBajoStock(productos, umbral)
    }
  }

  /** The body of the matching branch of `actualizar_producto` on one
      product: the setters, the save, and the rollback through the setters. */
  method ActualizarCampos(p: Producto, nombre: Option<string>, cantidad: Option<int>,
                          precio: Option<real>, guardado: bool) returns (ok: bool)
    modifies p`nombre, p`cantidad, p`precio
    ensures (p.Fields(), ok) == Actualizar(old(p.Fields()), nombre, cantidad, precio, guardado)
    ensures p.fechaCreacion == old(p.fechaCreacion)
  {
    var original := p.Fields();
    if nombre.Some? {
      var hecho := p.SetNombre(nombre.value);
      if !hecho { return false; }
    }
    if cantidad.Some? {
      var hecho := p.SetCantidad(cantidad.value);
      if !hecho { return false; }
    }
    if precio.Some? {
      var hecho := p.SetPrecio(precio.value);
      if !hecho { return false; }
    }
    if guardado {
      return true;
    }
    var hecho := p.SetNombre(original.nombre);
    if !hecho { return false; }
    hecho := p.SetCantidad(original.cantidad);
    if !hecho { return false; }
    hecho := p.SetPrecio(original.precio);
    return false;
  }
}
