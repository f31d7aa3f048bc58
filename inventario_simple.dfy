/**
 * The first console inventory (2525---PROGRAMACION-ORIENTADA-A-OBJETOS-D----
 * UEA-L-UFB-030/gestion-inventarios.py): a list of product objects with no
 * validation, where only the insertion checks that the id is new.
 */
module InventarioSimple {
  import opened Wrappers
  import Text
  import PySeq

  class Producto {
    const id: string
    var nombre: string
    var cantidad: int
    var precio: real

    constructor (id: string, nombre: string, cantidad: int, precio: real)
      ensures this.id == id && this.nombre == nombre
      ensures this.cantidad == cantidad && this.precio == precio
    {
      this.id := id;
      this.nombre := nombre;
      this.cantidad := cantidad;
      this.precio := precio;
    }

    method SetNombre(nombre: string)
      modifies this`nombre
      ensures this.nombre == nombre
    {
      this.nombre := nombre;
    }

    method SetCantidad(cantidad: int)
      modifies this`cantidad
      ensures this.cantidad == cantidad
    {
      this.cantidad := cantidad;
    }

    method SetPrecio(precio: real)
      modifies this`precio
      ensures this.precio == precio
    {
      this.precio := precio;
    }
  }

  /** The ids of a list of products, in order. */
  function IdsOf(s: seq<Producto>): (ids: seq<string>)
    ensures |ids| == |s| && forall i :: 0 <= i < |s| ==> ids[i] == s[i].id
  {
    seq(|s|, i requires 0 <= i < |s| => s[i].id)
  }

  /** The test of `buscar_por_nombre`: the lower-cased query occurs in the
      lower-cased name. */
  predicate NombreCoincide(p: Producto, nombre: string)
    reads p
  {
    Text.Contains(Text.Lower(p.nombre), Text.Lower(nombre))
  }

  /** The list comprehension of `buscar_por_nombre`: the matching products,
      in list order. */
  function FiltrarPorNombre(s: seq<Producto>, nombre: string): (r: seq<Producto>)
    reads s
    ensures |r| <= |s|
    ensures PySeq.IsSubsequence(r, s)
    ensures forall i :: 0 <= i < |r| ==> r[i] in s && NombreCoincide(r[i], nombre)
    ensures forall i :: 0 <= i < |s| && NombreCoincide(s[i], nombre) ==> s[i] in r
  {
    if s == [] then []
    else
      var resto := FiltrarPorNombre(s[1..], nombre);
      assert [s[0]] + s[1..] == s;
      PySeq.SubsequenceCons(s[0], resto, s[1..]);
      assert [] + resto == resto;
      (if NombreCoincide(s[0], nombre) then [s[0]] else []) + resto
  }

  class Inventario {
    var productos: seq<Producto>

    function Ids(): seq<string>
      reads this
    {
      IdsOf(productos)
    }

    /** No two products share an id (so no product object occurs twice). */
    ghost predicate Valid()
      reads this
    {
      PySeq.Distinct(Ids())
    }

    constructor ()
      ensures Valid() && productos == []
    {
      productos := [];
    }

    /** `agregar_producto`: refuses an id that is already present; otherwise
        appends the product. */
    method AgregarProducto(producto: Producto) returns (ok: bool)
      requires Valid()
      modifies this`productos
      ensures Valid()
      ensures ok <==> producto.id !in old(Ids())
      ensures productos == if ok then old(productos) + [producto] else old(productos)
    {
      if producto.id in Ids() {
        return false;
      }
      productos := productos + [producto];
      assert Ids() == old(Ids()) + [producto.id];
      return true;
    }

    /** `eliminar_producto`: removes the first product with that id; a missing
        id changes nothing. */
    method EliminarProducto(id: string) returns (ok: bool)
      requires Valid()
      modifies this`productos
      ensures Valid()
      ensures ok <==> id in old(Ids())
      ensures !ok ==> productos == old(productos)
      ensures ok ==> var k := PySeq.IndexOf(old(Ids()), id);
        productos == old(productos)[..k] + old(productos)[k + 1..]
      ensures id !in Ids()
    {
      var i := 0;
      while i < |productos|
        invariant 0 <= i <= |productos|
        invariant forall k :: 0 <= k < i ==> productos[k].id != id
      {
        if productos[i].id == id {
          var p := productos[i];
          assert Ids()[i] == id && id !in Ids()[..i];
          PySeq.IndexOfIs(Ids(), id, i);
          assert p !in productos[..i];
          PySeq.IndexOfIs(productos, p, i);
          productos := PySeq.RemoveFirst(productos, p);
          RemovedIds(old(productos), i);
          PySeq.RemoveFirstDistinct(old(Ids()), id);
          return true;
        }
        i := i + 1;
      }
      return false;
    }

    /** `actualizar_producto`: sets the quantity and the price that are given
        (not `None`) on the first product with that id, unchecked; the name and
        every other product are left alone. A missing id changes nothing. */
    method ActualizarProducto(id: string, cantidad: Option<int>, precio: Option<real>)
      returns (ok: bool)
      requires Valid()
      modifies productos
      ensures ok <==> id in Ids()
      ensures productos == old(productos)
      ensures ok ==> var p := productos[PySeq.IndexOf(Ids(), id)];
        && p.cantidad == (if cantidad.Some? then cantidad.value else old(p.cantidad))
        && p.precio == (if precio.Some? then precio.value else old(p.precio))
        && p.nombre == old(p.nombre)
      ensures forall q :: q in productos && (!ok || q != productos[PySeq.IndexOf(Ids(), id)]) ==>
        q.nombre == old(q.nombre) && q.cantidad == old(q.cantidad) && q.precio == old(q.precio)
    {
      var i := 0;
      while i < |productos|
        invariant 0 <= i <= |productos|
        invariant forall k :: 0 <= k < i ==> productos[k].id != id
      {
        var p := productos[i];
        if p.id == id {
          assert Ids()[i] == id && id !in Ids()[..i];
          PySeq.IndexOfIs(Ids(), id, i);
          if cantidad.Some? {
            p.SetCantidad(cantidad.value);
          }
          if precio.Some? {
            p.SetPrecio(precio.value);
          }
          return true;
        }
        i := i + 1;
      }
      return false;
    }

    /** `buscar_por_nombre`: the products whose lower-cased name contains the
        lower-cased query, in list order. */
    function BuscarPorNombre(nombre: string): (r: seq<Producto>)
      reads this, productos
      ensures PySeq.IsSubsequence(r, productos)
      ensures forall i :: 0 <= i < |r| ==> r[i] in productos && NombreCoincide(r[i], nombre)
      ensures forall i :: 0 <= i < |productos| && NombreCoincide(productos[i], nombre) ==> productos[i] in r
    {
      FiltrarPorNombre(productos, nombre)
    }
  }

  /** The ids left after removing position `k`. */
  lemma RemovedIds(s: seq<Producto>, k: int)
    requires 0 <= k < |s|
    ensures IdsOf(s[..k] + s[k + 1..]) == IdsOf(s)[..k] + IdsOf(s)[k + 1..]
  {
  }
}
