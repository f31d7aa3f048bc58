/**
 * The digital library (biblioteca.py): books kept in a dictionary by ISBN,
 * users kept in a dictionary by id beside a set of the registered ids, and a
 * counter of the loans made. A book is available or lent; a user keeps the
 * list of the ISBNs they hold and a history of loans and returns.
 *
 * Python's dictionary keeps insertion order, which the book queries expose:
 * the model keeps the map of books together with the sequence of its keys in
 * insertion order. Timestamps are parameters (`fecha`). The invariants are
 * stated over value views of the stored objects (`FichaLibro`,
 * `FichaUsuario`), so that they depend only on the objects' fields.
 */
module BibliotecaDigital {
  import opened Wrappers
  import Text
  import PySeq

  /** One entry of a user's loan history: the action, the ISBN and the
      timestamp. */
  datatype Movimiento = Movimiento(accion: string, isbn: string, fecha: string)

  const AccionPrestamo := "prestamo"
  const AccionDevolucion := "devolucion"

  /** All fields of a book at one moment. */
  datatype FichaLibro = FichaLibro(titulo: string, autor: string, categoria: string, isbn: string,
                                   disponible: bool)

  /** All fields of a user at one moment. */
  datatype FichaUsuario = FichaUsuario(nombre: string, id: string, prestados: seq<string>,
                                       historial: seq<Movimiento>)

  /** A user after `prestar_libro(isbn)` succeeded: the ISBN is appended to
      the loans and a "prestamo" entry to the history. The name and id stay;
      the old loans and history are kept as prefixes; a new ISBN keeps the
      loan list free of duplicates. */
  function ConPrestamo(f: FichaUsuario, isbn: string, fecha: string): FichaUsuario
  {
    f.(prestados := f.prestados + [isbn], historial := f.historial + [Movimiento(AccionPrestamo, isbn, fecha)])
  }

  /** What a loan does to a user: the name and id stay, the old loans and
      history are kept as prefixes and grow by one, the ISBN is held, and a
      new ISBN keeps the loan list free of duplicates. */
  lemma PrestamoEfecto(f: FichaUsuario, isbn: string, fecha: string)
    ensures var r := ConPrestamo(f, isbn, fecha);
      && r.nombre == f.nombre && r.id == f.id
      && f.prestados <= r.prestados && |r.prestados| == |f.prestados| + 1 && isbn in r.prestados
      && (isbn !in f.prestados && PySeq.Distinct(f.prestados) ==> PySeq.Distinct(r.prestados))
      && f.historial <= r.historial && |r.historial| == |f.historial| + 1
      && r.historial[|f.historial|] == Movimiento(AccionPrestamo, isbn, fecha)
  {
  }

  /** A user after `devolver_libro(isbn)` succeeded: `list.remove` of the
      ISBN and a "devolucion" entry in the history. One occurrence of the ISBN
      leaves the loans; in a duplicate-free list that is the only one, every
      other ISBN stays and the list stays duplicate-free. */
  function ConDevolucion(f: FichaUsuario, isbn: string, fecha: string): (r: FichaUsuario)
    ensures r.nombre == f.nombre && r.id == f.id
    ensures multiset(r.prestados) == multiset(f.prestados) - multiset{isbn}
    ensures PySeq.Distinct(f.prestados) ==>
      && isbn !in r.prestados && PySeq.Distinct(r.prestados)
      && forall j :: j != isbn ==> (j in r.prestados <==> j in f.prestados)
    ensures f.historial <= r.historial && |r.historial| == |f.historial| + 1
    ensures r.historial[|f.historial|] == Movimiento(AccionDevolucion, isbn, fecha)
  {
    assert PySeq.Distinct(f.prestados) ==>
      PySeq.Distinct(PySeq.RemoveFirst(f.prestados, isbn)) && isbn !in PySeq.RemoveFirst(f.prestados, isbn) by {
      if PySeq.Distinct(f.prestados) {
        PySeq.RemoveFirstDistinct(f.prestados, isbn);
      }
    }
    f.(prestados := PySeq.RemoveFirst(f.prestados, isbn),
       historial := f.historial + [Movimiento(AccionDevolucion, isbn, fecha)])
  }

  class Libro {
    const titulo: string
    const autor: string
    var categoria: string
    const isbn: string
    var disponible: bool

    function Ficha(): FichaLibro
      reads this
    {
      FichaLibro(titulo, autor, categoria, isbn, disponible)
    }

    /** A new book is available. */
    constructor (titulo: string, autor: string, categoria: string, isbn: string)
      ensures Ficha() == FichaLibro(titulo, autor, categoria, isbn, true)
    {
      this.titulo := titulo;
      this.autor := autor;
      this.categoria := categoria;
      this.isbn := isbn;
      disponible := true;
    }

    /** The `categoria` setter: the only field of a book besides its state
        that can change. */
    method SetCategoria(nueva: string)
      modifies this
      ensures Ficha() == old(Ficha()).(categoria := nueva)
    {
      categoria := nueva;
    }

    /** `prestar`: succeeds exactly on an available book; either way the book
        is lent afterwards and nothing else of it changes. */
    method Prestar() returns (ok: bool)
      modifies this
      ensures ok <==> old(disponible)
      ensures Ficha() == old(Ficha()).(disponible := false)
    {
      if disponible {
        disponible := false;
        return true;
      }
      return false;
    }

    /** `devolver`: succeeds exactly on a lent book; either way the book is
        available afterwards and nothing else of it changes. */
    method Devolver() returns (ok: bool)
      modifies this
      ensures ok <==> !old(disponible)
      ensures Ficha() == old(Ficha()).(disponible := true)
    {
      if !disponible {
        disponible := true;
        return true;
      }
      return false;
    }
  }

  class Usuario {
    var nombre: string
    const id: string
    var prestados: seq<string>
    var historial: seq<Movimiento>

    function Ficha(): FichaUsuario
      reads this
    {
      FichaUsuario(nombre, id, prestados, historial)
    }

    /** A new user holds no books and has an empty history. */
    constructor (nombre: string, id: string)
      ensures Ficha() == FichaUsuario(nombre, id, [], [])
    {
      this.nombre := nombre;
      this.id := id;
      prestados := [];
      historial := [];
    }

    /** The `nombre` setter. */
    method SetNombre(nuevo: string)
      modifies this
      ensures Ficha() == old(Ficha()).(nombre := nuevo)
    {
      nombre := nuevo;
    }

    /** `prestar_libro`: adds the ISBN, with one history entry, exactly when
        the user does not hold it yet, so the loan list stays free of
        duplicates; otherwise nothing changes. */
    method PrestarLibro(isbn: string, fecha: string) returns (ok: bool)
      modifies this
      ensures ok <==> isbn !in old(prestados)
      ensures Ficha() == if ok then ConPrestamo(old(Ficha()), isbn, fecha) else old(Ficha())
      ensures PySeq.Distinct(old(prestados)) ==> PySeq.Distinct(prestados)
      ensures TieneLibro(isbn)
    {
      if isbn !in prestados {
        prestados := prestados + [isbn];
        historial := historial + [Movimiento(AccionPrestamo, isbn, fecha)];
        return true;
      }
      return false;
    }

    /** `devolver_libro`: removes the ISBN, with one history entry, exactly
        when the user holds it; otherwise nothing changes. A duplicate-free
        list no longer holds the ISBN afterwards. */
    method DevolverLibro(isbn: string, fecha: string) returns (ok: bool)
      modifies this
      ensures ok <==> isbn in old(prestados)
      ensures Ficha() == if ok then ConDevolucion(old(Ficha()), isbn, fecha) else old(Ficha())
      ensures PySeq.Distinct(old(prestados)) ==> PySeq.Distinct(prestados) && !TieneLibro(isbn)
    {
      if isbn in prestados {
        if PySeq.Distinct(prestados) {
          PySeq.RemoveFirstDistinct(prestados, isbn);
        }
        prestados := PySeq.RemoveFirst(prestados, isbn);
        historial := historial + [Movimiento(AccionDevolucion, isbn, fecha)];
        return true;
      }
      return false;
    }

    /** `tiene_libro`: in a duplicate-free loan list, a held ISBN occurs
        exactly once. */
    function TieneLibro(isbn: string): (r: bool)
      reads this
      ensures r <==> multiset(prestados)[isbn] > 0
      ensures PySeq.Distinct(prestados) ==> (r <==> multiset(prestados)[isbn] == 1)
    {
      assert PySeq.Distinct(prestados) && isbn in prestados ==> multiset(prestados)[isbn] == 1 by {
        if PySeq.Distinct(prestados) && isbn in prestados {
          PySeq.DistinctCount(prestados, isbn);
        }
      }

      isbn in prestados
    }
  }

  /** The fields of the stored books, as values. */
  ghost function VistaLibros(m: map<string, Libro>): (v: map<string, FichaLibro>)
    reads m.Values
    ensures v.Keys == m.Keys
    ensures forall k :: k in m ==> v[k] == m[k].Ficha()
  {
    map k | k in m :: m[k].Ficha()
  }

  /** The fields of the registered users, as values. */
  ghost function VistaUsuarios(m: map<string, Usuario>): (v: map<string, FichaUsuario>)
    reads m.Values
    ensures v.Keys == m.Keys
    ensures forall k :: k in m ==> v[k] == m[k].Ficha()
  {
    map k | k in m :: m[k].Ficha()
  }

  /** When every stored book but the one under `k` still has the fields `ls`
      records, the view is `ls` with only that entry replaced. */
  lemma LibroSustituido(m: map<string, Libro>, k: string, ls: map<string, FichaLibro>)
    requires k in m && ls.Keys == m.Keys
    requires forall j :: j in m && j != k ==> m[j].Ficha() == ls[j]
    ensures VistaLibros(m) == ls[k := m[k].Ficha()]
  {
  }

  /** When every registered user but the one under `k` still has the fields
      `us` records, the view is `us` with only that entry replaced. */
  lemma UsuarioSustituido(m: map<string, Usuario>, k: string, us: map<string, FichaUsuario>)
    requires k in m && us.Keys == m.Keys
    requires forall j :: j in m && j != k ==> m[j].Ficha() == us[j]
    ensures VistaUsuarios(m) == us[k := m[k].Ficha()]
  {
  }

  /** Storing a book under its ISBN stores its fields in the view. */
  lemma LibrosInsertar(m: map<string, Libro>, l: Libro)
    ensures VistaLibros(m[l.isbn := l]) == VistaLibros(m)[l.isbn := l.Ficha()]
  {
  }

  /** Deleting a key deletes it from the view of the books. */
  lemma LibrosQuitar(m: map<string, Libro>, k: string)
    ensures VistaLibros(m - {k}) == VistaLibros(m) - {k}
  {
  }

  /** Storing a user under their id stores their fields in the view. */
  lemma UsuariosInsertar(m: map<string, Usuario>, u: Usuario)
    ensures VistaUsuarios(m[u.id := u]) == VistaUsuarios(m)[u.id := u.Ficha()]
  {
  }

  /** Deleting a key deletes it from the view of the users. */
  lemma UsuariosQuitar(m: map<string, Usuario>, k: string)
    ensures VistaUsuarios(m - {k}) == VistaUsuarios(m) - {k}
  {
  }

  /** The view of the books only depends on their fields. */
  twostate lemma LibrosEstables(m: map<string, Libro>)
    requires unchanged(m.Values)
    ensures VistaLibros(m) == old(VistaLibros(m))
  {
  }

  /** The view of the users only depends on their fields. */
  twostate lemma UsuariosEstables(m: map<string, Usuario>)
    requires unchanged(m.Values)
    ensures VistaUsuarios(m) == old(VistaUsuarios(m))
  {
  }

  /** The shape every operation keeps: each book is stored under its ISBN,
      each user under their id, the id set is the key set of the users, and
      `orden` lists the ISBNs once each, in insertion order. */
  ghost predicate Estructura(ls: map<string, FichaLibro>, orden: seq<string>,
                             us: map<string, FichaUsuario>, ids: set<string>)
  {
    && (forall k :: k in ls ==> ls[k].isbn == k)
    && (forall k :: k in us ==> us[k].id == k)
    && ids == us.Keys
    && PySeq.Distinct(orden)
    && (forall k :: k in ls <==> k in orden)
  }

  /** The user `u` is registered and holds the book `isbn`. */
  ghost predicate Tiene(us: map<string, FichaUsuario>, u: string, isbn: string)
  {
    u in us && isbn in us[u].prestados
  }

  /** The loan invariant: no user's list repeats an ISBN; every ISBN a user
      holds is a stored book that is lent; every lent book is held by some
      user; and no two users hold the same book. */
  ghost predicate PrestamosCoherentes(ls: map<string, FichaLibro>, us: map<string, FichaUsuario>)
  {
    && (forall u :: u in us ==> PySeq.Distinct(us[u].prestados))
    && (forall u, isbn :: Tiene(us, u, isbn) ==> isbn in ls && !ls[isbn].disponible)
    && (forall isbn :: isbn in ls && !ls[isbn].disponible ==> exists u :: Tiene(us, u, isbn))
    && (forall u, w, isbn :: Tiene(us, u, isbn) && Tiene(us, w, isbn) ==> u == w)
  }

  /** `añadir_libro` keeps the shape, and keeps the loan invariant when the
      new book is available: no user can hold an ISBN that was not stored. */
  lemma AnadirConserva(ls: map<string, FichaLibro>, orden: seq<string>, us: map<string, FichaUsuario>,
                       ids: set<string>, f: FichaLibro, ls': map<string, FichaLibro>, orden': seq<string>)
    requires Estructura(ls, orden, us, ids) && f.isbn !in ls
    requires ls' == ls[f.isbn := f] && orden' == orden + [f.isbn]
    ensures Estructura(ls', orden', us, ids)
    ensures PrestamosCoherentes(ls, us) && f.disponible ==> PrestamosCoherentes(ls', us)
  {
    assert f.isbn !in orden;
  }

  /** `quitar_libro` of an available book keeps the shape and the loan
      invariant: nobody holds an available book. */
  lemma QuitarConserva(ls: map<string, FichaLibro>, orden: seq<string>, us: map<string, FichaUsuario>,
                       ids: set<string>, isbn: string, ls': map<string, FichaLibro>, orden': seq<string>)
    requires Estructura(ls, orden, us, ids) && isbn in ls && ls[isbn].disponible
    requires ls' == ls - {isbn} && orden' == PySeq.RemoveFirst(orden, isbn)
    ensures Estructura(ls', orden', us, ids)
    ensures PrestamosCoherentes(ls, us) ==> PrestamosCoherentes(ls', us)
  {
    PySeq.RemoveFirstDistinct(orden, isbn);
  }

  /** `registrar_usuario` keeps the shape, and keeps the loan invariant when
      the new user holds no books. */
  lemma RegistrarConserva(ls: map<string, FichaLibro>, orden: seq<string>, us: map<string, FichaUsuario>,
                          ids: set<string>, f: FichaUsuario, us': map<string, FichaUsuario>, ids': set<string>)
    requires Estructura(ls, orden, us, ids) && f.id !in ids
    requires us' == us[f.id := f] && ids' == ids + {f.id}
    ensures Estructura(ls, orden, us', ids')
    ensures PrestamosCoherentes(ls, us) && f.prestados == [] ==> PrestamosCoherentes(ls, us')
  {
    if PrestamosCoherentes(ls, us) && f.prestados == [] {
      forall u, isbn | Tiene(us', u, isbn) ensures Tiene(us, u, isbn) {
      }
      forall isbn | isbn in ls && !ls[isbn].disponible ensures exists u :: Tiene(us', u, isbn) {
        var u :| Tiene(us, u, isbn);
        assert Tiene(us', u, isbn);
      }
    }
  }

  /** `dar_de_baja_usuario` of a user without loans keeps the shape and the
      loan invariant: the lent books are held by the other users. */
  lemma BajaConserva(ls: map<string, FichaLibro>, orden: seq<string>, us: map<string, FichaUsuario>,
                     ids: set<string>, id: string, us': map<string, FichaUsuario>, ids': set<string>)
    requires Estructura(ls, orden, us, ids) && id in us && us[id].prestados == []
    requires us' == us - {id} && ids' == ids - {id}
    ensures Estructura(ls, orden, us', ids')
    ensures PrestamosCoherentes(ls, us) ==> PrestamosCoherentes(ls, us')
  {
    if PrestamosCoherentes(ls, us) {
      forall u, isbn | Tiene(us', u, isbn) ensures Tiene(us, u, isbn) {
      }
      forall isbn | isbn in ls && !ls[isbn].disponible ensures exists u :: Tiene(us', u, isbn) {
        var u :| Tiene(us, u, isbn);
        assert u != id;
        assert Tiene(us', u, isbn);
      }
    }
  }

  /** The lending step of `prestar_libro` on an available book keeps the
      shape. Under the loan invariant nobody holds an available book, so the
      borrower cannot already hold it, the step succeeds, and afterwards
      exactly the borrower holds it. */
  lemma PrestamoConserva(ls: map<string, FichaLibro>, orden: seq<string>, us: map<string, FichaUsuario>,
                         ids: set<string>, isbn: string, id: string, fecha: string, ok: bool,
                         ls': map<string, FichaLibro>, us': map<string, FichaUsuario>)
    requires Estructura(ls, orden, us, ids) && isbn in ls && ls[isbn].disponible && id in us
    requires ok <==> isbn !in us[id].prestados
    requires ls' == ls[isbn := ls[isbn].(disponible := false)]
    requires us' == if ok then us[id := ConPrestamo(us[id], isbn, fecha)] else us
    ensures Estructura(ls', orden, us', ids)
    ensures PrestamosCoherentes(ls, us) ==> ok && PrestamosCoherentes(ls', us')
  {
    if PrestamosCoherentes(ls, us) {
      assert !Tiene(us, id, isbn);
      forall u, j | Tiene(us', u, j) ensures j in ls' && !ls'[j].disponible {
        if u != id || j != isbn {
          assert Tiene(us, u, j);
        }
      }
      forall j | j in ls' && !ls'[j].disponible ensures exists u :: Tiene(us', u, j) {
        if j == isbn {
          assert Tiene(us', id, j);
        } else {
          var u :| Tiene(us, u, j);
          assert Tiene(us', u, j);
        }
      }
      forall u, w, j | Tiene(us', u, j) && Tiene(us', w, j) ensures u == w {
        if j != isbn {
          assert Tiene(us, u, j) && Tiene(us, w, j);
        } else {
          assert !Tiene(us, u, isbn) && !Tiene(us, w, isbn);
        }
      }
    }
  }

  /** The returning step of `devolver_libro`, for a user holding the book,
      keeps the shape. Under the loan invariant the book is lent, so the
      step succeeds, and afterwards nobody holds it: the borrower was its
      only holder and their list had no repeats. */
  lemma DevolucionConserva(ls: map<string, FichaLibro>, orden: seq<string>, us: map<string, FichaUsuario>,
                           ids: set<string>, isbn: string, id: string, fecha: string, ok: bool,
                           ls': map<string, FichaLibro>, us': map<string, FichaUsuario>)
    requires Estructura(ls, orden, us, ids) && isbn in ls && Tiene(us, id, isbn)
    requires ok <==> !ls[isbn].disponible
    requires ls' == ls[isbn := ls[isbn].(disponible := true)]
    requires us' == if ok then us[id := ConDevolucion(us[id], isbn, fecha)] else us
    ensures Estructura(ls', orden, us', ids)
    ensures PrestamosCoherentes(ls, us) ==> ok && PrestamosCoherentes(ls', us')
  {
    if PrestamosCoherentes(ls, us) {
      var antes := us[id].prestados;
      PySeq.RemoveFirstDistinct(antes, isbn);
      forall u, j | Tiene(us', u, j) ensures j in ls' && !ls'[j].disponible {
        assert Tiene(us, u, j);
        assert j != isbn;
      }
      forall j | j in ls' && !ls'[j].disponible ensures exists u :: Tiene(us', u, j) {
        var u :| Tiene(us, u, j);
        assert Tiene(us', u, j);
      }
      forall u, w, j | Tiene(us', u, j) && Tiene(us', w, j) ensures u == w {
        assert Tiene(us, u, j) && Tiene(us, w, j);
      }
    }
  }

  /** The books stored under the keys `ks`, in that order. */
  function Mirar(m: map<string, Libro>, ks: seq<string>): (r: seq<Libro>)
    requires forall i :: 0 <= i < |ks| ==> ks[i] in m
    ensures |r| == |ks| && forall i :: 0 <= i < |ks| ==> r[i] == m[ks[i]]
  {
    seq(|ks|, i requires 0 <= i < |ks| && ks[i] in m => m[ks[i]])
  }

  /** The book of every listed key is in the result. */
  lemma MirarCubre(m: map<string, Libro>, ks: seq<string>)
    requires forall i :: 0 <= i < |ks| ==> ks[i] in m
    ensures forall k :: k in ks ==> m[k] in Mirar(m, ks)
  {
    forall k | k in ks ensures m[k] in Mirar(m, ks) {
      var i :| 0 <= i < |ks| && ks[i] == k;
      assert Mirar(m, ks)[i] == m[k];
    }
  }

  /** The books stored under those of the keys `ks` that are stored, in the
      order of `ks`: what `listar_libros_prestados_usuario` collects. */
  function Presentes(m: map<string, Libro>, ks: seq<string>): (r: seq<Libro>)
    ensures |r| <= |ks|
    ensures forall p :: p in r ==> exists k :: k in ks && k in m && p == m[k]
    ensures forall k :: k in ks && k in m ==> m[k] in r
  {
    if ks == [] then []
    else
      var init := Presentes(m, ks[..|ks| - 1]);
      assert forall k :: k in ks[..|ks| - 1] ==> k in ks;
      assert forall k :: k in ks ==> k in ks[..|ks| - 1] || k == ks[|ks| - 1];
      init + (if ks[|ks| - 1] in m then [m[ks[|ks| - 1]]] else [])
  }

  /** Collecting one more key extends the result by its book when it is
      stored. */
  lemma PresentesPaso(m: map<string, Libro>, ks: seq<string>, i: int)
    requires 0 <= i < |ks|
    ensures Presentes(m, ks[..i + 1]) == Presentes(m, ks[..i]) + (if ks[i] in m then [m[ks[i]]] else [])
  {
    assert ks[..i + 1][..i] == ks[..i];
  }

  /** When every key is stored, nothing is skipped: one book per key, in
      order. */
  lemma {:induction false} PresentesTodos(m: map<string, Libro>, ks: seq<string>)
    requires forall i :: 0 <= i < |ks| ==> ks[i] in m
    ensures Presentes(m, ks) == Mirar(m, ks)
  {
    if ks != [] {
      PresentesTodos(m, ks[..|ks| - 1]);
    }
  }

  /** The tests of the book queries. */
  datatype Criterio =
    | TituloContiene(titulo: string)
    | AutorContiene(autor: string)
    | CategoriaIgual(categoria: string)
    | Disponibles
    | Prestados

  /** Whether a book passes a test: the lower-cased title (author) contains
      the lower-cased query; the lower-cased category equals the lower-cased
      category asked for; the book is available; the book is lent. */
  predicate Cumple(l: Libro, c: Criterio)
    reads l
  {
    match c
    case TituloContiene(q) => Text.Contains(Text.Lower(l.titulo), Text.Lower(q))
    case AutorContiene(q) => Text.Contains(Text.Lower(l.autor), Text.Lower(q))
    case CategoriaIgual(q) => Text.Lower(q) == Text.Lower(l.categoria)
    case Disponibles => l.disponible
    case Prestados => !l.disponible
  }

  /** The books of `s` that pass the test, in the order of `s`. */
  function Filtrar(s: seq<Libro>, c: Criterio): (r: seq<Libro>)
    reads s
    ensures |r| <= |s|
    ensures forall i :: 0 <= i < |r| ==> r[i] in s && Cumple(r[i], c)
    ensures forall i :: 0 <= i < |s| && Cumple(s[i], c) ==> s[i] in r
  {
    if s == [] then []
    else
      var init := Filtrar(s[..|s| - 1], c);
      assert forall i :: 0 <= i < |s| - 1 ==> s[..|s| - 1][i] == s[i];
      init + (if Cumple(s[|s| - 1], c) then [s[|s| - 1]] else [])
  }

  /** The books that pass the test keep the order of `s`: the result is a
      subsequence of `s`. */
  lemma {:induction false} FiltrarOrden(s: seq<Libro>, c: Criterio)
    ensures PySeq.IsSubsequence(Filtrar(s, c), s)
  {
    if s != [] {
      var init, last := s[..|s| - 1], s[|s| - 1];
      FiltrarOrden(init, c);
      PySeq.SubsequenceSnoc(Filtrar(init, c), init, last);
      assert init + [last] == s;
      assert Filtrar(init, c) + [] == Filtrar(init, c);
    }
  }

  /** The empty query is in every title, so searching for it returns every
      book, in order. */
  lemma {:induction false} FiltrarTituloVacio(s: seq<Libro>)
    ensures Filtrar(s, TituloContiene("")) == s
  {
    if s != [] {
      FiltrarTituloVacio(s[..|s| - 1]);
      Text.ContainsEmpty(Text.Lower(s[|s| - 1].titulo));
    }
  }

  /** Every book is either available or lent: the two availability queries
      split the catalogue. */
  lemma {:induction false} DisponiblesMasPrestados(s: seq<Libro>)
    ensures |Filtrar(s, Disponibles)| + |Filtrar(s, Prestados)| == |s|
  {
    if s != [] {
      DisponiblesMasPrestados(s[..|s| - 1]);
    }
  }

  /** A duplicate-free list of exactly the keys has as many entries as the
      dictionary: the number of books is the length of the catalogue order. */
  lemma {:induction false} OrdenCuenta(ls: map<string, FichaLibro>, orden: seq<string>)
    requires PySeq.Distinct(orden) && forall k :: k in ls <==> k in orden
    ensures |ls| == |orden|
  {
    PySeq.DistinctCard(orden);
    assert ls.Keys == set x | x in orden;
  }

  class Biblioteca {
    const nombre: string
    var libros: map<string, Libro>
    var orden: seq<string>
    var usuarios: map<string, Usuario>
    var idsUsuarios: set<string>
    var totalPrestamos: nat

    /** The shape of the catalogue and of the user registry. */
    ghost predicate Valid()
      reads this, libros.Values, usuarios.Values
    {
      Estructura(VistaLibros(libros), orden, VistaUsuarios(usuarios), idsUsuarios)
    }

    /** The loan invariant on the stored books and registered users. */
    ghost predicate Coherente()
      reads this, libros.Values, usuarios.Values
    {
      PrestamosCoherentes(VistaLibros(libros), VistaUsuarios(usuarios))
    }

    /** An empty library (default name "Biblioteca Digital") with no loans
        made; it keeps both invariants. */
    constructor (nombre: string := "Biblioteca Digital")
      ensures Valid() && Coherente()
      ensures this.nombre == nombre
      ensures libros == map[] && orden == [] && usuarios == map[] && idsUsuarios == {}
      ensures totalPrestamos == 0
    {
      this.nombre := nombre;
      libros := map[];
      orden := [];
      usuarios := map[];
      idsUsuarios := {};
      totalPrestamos := 0;
    }

    /** The stored books in insertion order: `self._libros.values()`. */
    function Valores(): seq<Libro>
      requires forall i :: 0 <= i < |orden| ==> orden[i] in libros
      reads this
    {
      Mirar(libros, orden)
    }

    /** `añadir_libro`: a book whose ISBN is already stored is refused and
        nothing changes; otherwise it is stored under its ISBN, last in
        order. Adding an available book keeps the loan invariant. */
    method AnadirLibro(libro: Libro) returns (ok: bool)
      requires Valid()
      modifies this`libros, this`orden
      ensures Valid()
      ensures ok <==> libro.isbn !in old(libros)
      ensures libros == if ok then old(libros)[libro.isbn := libro] else old(libros)
      ensures orden == if ok then old(orden) + [libro.isbn] else old(orden)
      ensures old(Coherente()) && (ok ==> libro.disponible) ==> Coherente()
    {
      if libro.isbn in libros {
        return false;
      }
      ghost var ls, us := VistaLibros(libros), VistaUsuarios(usuarios);
      libros := libros[libro.isbn := libro];
      orden := orden + [libro.isbn];
      LibrosEstables(old(libros));
      UsuariosEstables(usuarios);
      LibrosInsertar(old(libros), libro);
      AnadirConserva(ls, old(orden), us, idsUsuarios, libro.Ficha(), VistaLibros(libros), orden);
      return true;
    }

    /** `quitar_libro`: only a stored, available book is removed; a missing
        or lent book gives `False` and nothing changes. The loan invariant
        is kept. */
    method QuitarLibro(isbn: string) returns (ok: bool)
      requires Valid()
      modifies this`libros, this`orden
      ensures Valid()
      ensures ok <==> old(isbn in libros && libros[isbn].disponible)
      ensures libros == if ok then old(libros) - {isbn} else old(libros)
      ensures orden == if ok then PySeq.RemoveFirst(old(orden), isbn) else old(orden)
      ensures old(Coherente()) ==> Coherente()
    {
      if isbn !in libros || !libros[isbn].disponible {
        return false;
      }
      ghost var ls, us := VistaLibros(libros), VistaUsuarios(usuarios);
      libros := libros - {isbn};
      orden := PySeq.RemoveFirst(orden, isbn);
      LibrosEstables(old(libros));
      UsuariosEstables(usuarios);
      LibrosQuitar(old(libros), isbn);
      QuitarConserva(ls, old(orden), us, idsUsuarios, isbn, VistaLibros(libros), orden);
      return true;
    }

    /** `buscar_libro_por_isbn`: `dict.get`. */
    function BuscarLibroPorIsbn(isbn: string): (r: Option<Libro>)
      reads this
      ensures r.Some? <==> isbn in libros
      ensures r.Some? ==> r.value == libros[isbn]
    {
      if isbn in libros then Some(libros[isbn]) else None
    }

    /** `buscar_usuario`: `dict.get`. */
    function BuscarUsuario(id: string): (r: Option<Usuario>)
      reads this
      ensures r.Some? <==> id in usuarios
      ensures r.Some? ==> r.value == usuarios[id]
    {
      if id in usuarios then Some(usuarios[id]) else None
    }

    /** `registrar_usuario`: an id already in the id set is refused and
        nothing changes; otherwise the user is stored under their id and the
        id added to the set, which stays the key set of the users.
        Registering a user without loans keeps the loan invariant. */
    method RegistrarUsuario(usuario: Usuario) returns (ok: bool)
      requires Valid()
      modifies this`usuarios, this`idsUsuarios
      ensures Valid()
      ensures ok <==> usuario.id !in old(idsUsuarios)
      ensures usuarios == if ok then old(usuarios)[usuario.id := usuario] else old(usuarios)
      ensures idsUsuarios == if ok then old(idsUsuarios) + {usuario.id} else old(idsUsuarios)
      ensures old(Coherente()) && (ok ==> usuario.prestados == []) ==> Coherente()
    {
      if usuario.id in idsUsuarios {
        return false;
      }
      ghost var ls, us := VistaLibros(libros), VistaUsuarios(usuarios);
      usuarios := usuarios[usuario.id := usuario];
      idsUsuarios := idsUsuarios + {usuario.id};
      LibrosEstables(libros);
      UsuariosEstables(old(usuarios));
      UsuariosInsertar(old(usuarios), usuario);
      RegistrarConserva(ls, orden, us, old(idsUsuarios), usuario.Ficha(), VistaUsuarios(usuarios), idsUsuarios);
      return true;
    }

    /** `dar_de_baja_usuario`: only a registered user holding no books is
        removed, from the dictionary and from the id set; otherwise `False`
        and nothing changes. The loan invariant is kept. */
    method DarDeBajaUsuario(id: string) returns (ok: bool)
      requires Valid()
      modifies this`usuarios, this`idsUsuarios
      ensures Valid()
      ensures ok <==> old(id in idsUsuarios && usuarios[id].prestados == [])
      ensures usuarios == if ok then old(usuarios) - {id} else old(usuarios)
      ensures idsUsuarios == if ok then old(idsUsuarios) - {id} else old(idsUsuarios)
      ensures old(Coherente()) ==> Coherente()
    {
      if id !in idsUsuarios {
        return false;
      }
      assert id in VistaUsuarios(usuarios);
      if |usuarios[id].prestados| != 0 {
        return false;
      }
      ghost var ls, us := VistaLibros(libros), VistaUsuarios(usuarios);
      usuarios := usuarios - {id};
      idsUsuarios := idsUsuarios - {id};
      LibrosEstables(libros);
      UsuariosEstables(old(usuarios));
      UsuariosQuitar(old(usuarios), id);
      BajaConserva(ls, orden, us, old(idsUsuarios), id, VistaUsuarios(usuarios), idsUsuarios);
      return true;
    }

    /** `prestar_libro`: the book must be stored, the user registered and
        the book available, or nothing changes. Then `libro.prestar() and
        usuario.prestar_libro(isbn)` runs: the book is lent, the ISBN is
        added to the user's loans and the counter grows by one, unless the
        user already held that ISBN, when the book stays lent and `False`
        comes back. Under the loan invariant that case cannot arise, the
        invariant is kept, and a refused loan changes nothing. */
    method PrestarLibro(isbn: string, id: string, fecha: string) returns (ok: bool)
      requires Valid()
      modifies this`totalPrestamos, libros.Values, usuarios.Values
      ensures Valid()
      ensures ok <==> old(isbn in libros && id in usuarios && libros[isbn].disponible
                          && isbn !in usuarios[id].prestados)
      ensures totalPrestamos == old(totalPrestamos) + (if ok then 1 else 0)
      ensures VistaLibros(libros) ==
        old(if isbn in libros && id in usuarios && libros[isbn].disponible
            then VistaLibros(libros)[isbn := VistaLibros(libros)[isbn].(disponible := false)]
            else VistaLibros(libros))
      ensures VistaUsuarios(usuarios) ==
        old(if ok then VistaUsuarios(usuarios)[id := ConPrestamo(VistaUsuarios(usuarios)[id], isbn, fecha)]
            else VistaUsuarios(usuarios))
      ensures old(Coherente()) ==> Coherente()
      ensures old(Coherente()) ==>
        (ok <==> old(isbn in libros && id in usuarios && libros[isbn].disponible))
    {
      if isbn !in libros || id !in usuarios || !libros[isbn].disponible {
        return false;
      }
      ghost var ls, us := VistaLibros(libros), VistaUsuarios(usuarios);
      ok := Prestamo(isbn, id, fecha);
      ghost var ls', us' := VistaLibros(libros), VistaUsuarios(usuarios);
      PrestamoConserva(ls, orden, us, idsUsuarios, isbn, id, fecha, ok, ls', us');
      label prestado:
      if ok {
        totalPrestamos := totalPrestamos + 1;
      }
      LibrosEstables@prestado(libros);
      UsuariosEstables@prestado(usuarios);
    }

    /** The lending step of `prestar_libro` once its checks have passed:
        `libro.prestar() and usuario.prestar_libro(isbn)`. */
    method Prestamo(isbn: string, id: string, fecha: string) returns (ok: bool)
      requires isbn in libros && id in usuarios
      requires forall k :: k in libros ==> libros[k].isbn == k
      requires forall k :: k in usuarios ==> usuarios[k].id == k
      modifies libros[isbn], usuarios[id]
      ensures ok <==> old(libros[isbn].disponible && isbn !in usuarios[id].prestados)
      ensures VistaLibros(libros) == old(VistaLibros(libros)[isbn := VistaLibros(libros)[isbn].(disponible := false)])
      ensures VistaUsuarios(usuarios) == old(if ok then VistaUsuarios(usuarios)[id := ConPrestamo(VistaUsuarios(usuarios)[id], isbn, fecha)]
                                        else VistaUsuarios(usuarios))
    {
      ghost var ls, us := VistaLibros(libros), VistaUsuarios(usuarios);
      var libro, usuario := libros[isbn], usuarios[id];
      var prestado := libro.Prestar();
      ok := false;
      if prestado {
        ok := usuario.PrestarLibro(isbn, fecha);
      }
      forall j | j in libros && j != isbn
        ensures libros[j].Ficha() == ls[j]
      {
        assert libros[j].isbn != libro.isbn;
      }
      LibroSustituido(libros, isbn, ls);
      forall j | j in usuarios && j != id
        ensures usuarios[j].Ficha() == us[j]
      {
        assert usuarios[j].id != usuario.id;
      }
      UsuarioSustituido(usuarios, id, us);
    }

    /** `devolver_libro`: the book must be stored, the user registered and
        holding that ISBN, or nothing changes. Then `libro.devolver() and
        usuario.devolver_libro(isbn)` runs: when the book is lent it becomes
        available and the ISBN leaves the user's loans; when it is not lent,
        `False` and nothing changes. The counter of loans never changes.
        Under the loan invariant every check past the first three succeeds
        and the invariant is kept. */
    method DevolverLibro(isbn: string, id: string, fecha: string) returns (ok: bool)
      requires Valid()
      modifies libros.Values, usuarios.Values
      ensures Valid()
      ensures totalPrestamos == old(totalPrestamos)
      ensures ok <==> old(isbn in libros && id in usuarios && isbn in usuarios[id].prestados
                          && !libros[isbn].disponible)
      ensures !ok ==> VistaLibros(libros) == old(VistaLibros(libros)) && VistaUsuarios(usuarios) == old(VistaUsuarios(usuarios))
      ensures ok ==>
        && VistaLibros(libros) == old(VistaLibros(libros)[isbn := libros[isbn].Ficha().(disponible := true)])
        && VistaUsuarios(usuarios) == old(VistaUsuarios(usuarios)[id := ConDevolucion(usuarios[id].Ficha(), isbn, fecha)])
      ensures old(Coherente()) ==> Coherente()
      ensures old(Coherente()) ==>
        (ok <==> old(isbn in libros && id in usuarios && isbn in usuarios[id].prestados))
    {
      if isbn !in libros || id !in usuarios || isbn !in usuarios[id].prestados {
        return false;
      }
      ghost var ls, us := VistaLibros(libros), VistaUsuarios(usuarios);
      assert Tiene(us, id, isbn);
      ok := Devolucion(isbn, id, fecha);
      DevolucionConserva(ls, orden, us, idsUsuarios, isbn, id, fecha, ok, VistaLibros(libros), VistaUsuarios(usuarios));
    }

    /** The returning step of `devolver_libro` once its checks have passed:
        `libro.devolver() and usuario.devolver_libro(isbn)`. */
    method Devolucion(isbn: string, id: string, fecha: string) returns (ok: bool)
      requires isbn in libros && id in usuarios && isbn in usuarios[id].prestados
      requires forall k :: k in libros ==> libros[k].isbn == k
      requires forall k :: k in usuarios ==> usuarios[k].id == k
      modifies libros[isbn], usuarios[id]
      ensures ok <==> !old(libros[isbn].disponible)
      ensures VistaLibros(libros) == old(VistaLibros(libros)[isbn := VistaLibros(libros)[isbn].(disponible := true)])
      ensures VistaUsuarios(usuarios) == old(if ok then VistaUsuarios(usuarios)[id := ConDevolucion(VistaUsuarios(usuarios)[id], isbn, fecha)]
                                        else VistaUsuarios(usuarios))
    {
      ghost var ls, us := VistaLibros(libros), VistaUsuarios(usuarios);
      var libro, usuario := libros[isbn], usuarios[id];
      var devuelto := libro.Devolver();
      ok := false;
      if devuelto {
        ok := usuario.DevolverLibro(isbn, fecha);
      }
      forall j | j in libros && j != isbn
        ensures libros[j].Ficha() == ls[j]
      {
        assert libros[j].isbn != libro.isbn;
      }
      LibroSustituido(libros, isbn, ls);
      forall j | j in usuarios && j != id
        ensures usuarios[j].Ficha() == us[j]
      {
        assert usuarios[j].id != usuario.id;
      }
      UsuarioSustituido(usuarios, id, us);
    }

    /** `listar_libros_prestados_usuario`: for an unknown user the empty
        list; otherwise, in the order of the user's loans, the stored books
        of the ISBNs they hold. */
    method ListarLibrosPrestadosUsuario(id: string) returns (r: seq<Libro>)
      ensures r == if id in usuarios then Presentes(libros, usuarios[id].prestados) else []
    {
      var encontrado := BuscarUsuario(id);
      if encontrado.None? {
        return [];
      }
      var isbns := encontrado.value.prestados;
      r := [];
      var i := 0;
      while i < |isbns|
        invariant 0 <= i <= |isbns|
        invariant r == Presentes(libros, isbns[..i])
      {
        var libro := BuscarLibroPorIsbn(isbns[i]);
        PresentesPaso(libros, isbns, i);
        if libro.Some? {
          r := r + [libro.value];
        }
        i := i + 1;
      }
      assert isbns[..|isbns|] == isbns;
    }

    /** Under the loan invariant the listing skips nothing: it holds one
        book per loan, in the order of the loans, each of them lent. */
    lemma PrestadosDelUsuario(id: string)
      requires Coherente() && id in usuarios
      ensures forall i :: 0 <= i < |usuarios[id].prestados| ==>
        usuarios[id].prestados[i] in libros && !libros[usuarios[id].prestados[i]].disponible
      ensures Presentes(libros, usuarios[id].prestados) == Mirar(libros, usuarios[id].prestados)
    {
      var ls, us := VistaLibros(libros), VistaUsuarios(usuarios);
      var ks := usuarios[id].prestados;
      assert us[id].prestados == ks;
      forall i | 0 <= i < |ks| ensures ks[i] in libros && !libros[ks[i]].disponible {
        assert Tiene(us, id, ks[i]);
        assert ls[ks[i]] == libros[ks[i]].Ficha();
      }
      PresentesTodos(libros, ks);
    }

    lemma OrdenEnLibros()
      requires Valid()
      ensures forall i :: 0 <= i < |orden| ==> orden[i] in libros
      ensures |libros| == |orden|
    {
      OrdenCuenta(VistaLibros(libros), orden);
    }

    /** Under the shape invariant, filtering the books in insertion order
        keeps exactly the stored books that pass the test. */
    lemma FiltrarValores(c: Criterio)
      requires Valid()
      ensures forall i :: 0 <= i < |orden| ==> orden[i] in libros
      ensures forall p :: p in Filtrar(Valores(), c) ==> p in libros.Values && Cumple(p, c)
      ensures forall k :: k in libros && Cumple(libros[k], c) ==> libros[k] in Filtrar(Valores(), c)
    {
      OrdenEnLibros();
      var s, r := Valores(), Filtrar(Valores(), c);
      forall p | p in r ensures p in libros.Values && Cumple(p, c) {
        var j :| 0 <= j < |s| && s[j] == p;
        assert p == libros[orden[j]];
      }
      MirarCubre(libros, orden);
      forall k | k in libros && Cumple(libros[k], c) ensures libros[k] in r {
        assert k in VistaLibros(libros);
        var j :| 0 <= j < |orden| && orden[j] == k;
        assert s[j] == libros[k];
      }
    }

    /** `buscar_libros_por_titulo`: exactly the stored books whose
        lower-cased title contains the lower-cased query, in insertion
        order; the empty query gives every book. */
    function BuscarLibrosPorTitulo(titulo: string): (r: seq<Libro>)
      requires Valid()
      reads this, libros.Values, usuarios.Values
      ensures forall p :: p in r ==> p in libros.Values && Text.Contains(Text.Lower(p.titulo), Text.Lower(titulo))
      ensures forall k :: k in libros && Text.Contains(Text.Lower(libros[k].titulo), Text.Lower(titulo)) ==>
        libros[k] in r
      ensures titulo == "" ==> r == Valores()
    {
      FiltrarValores(TituloContiene(titulo));
      FiltrarTituloVacio(Valores());
      Filtrar(Valores(), TituloContiene(titulo))
    }

    /** `buscar_libros_por_autor`: exactly the stored books whose lower-cased
        author contains the lower-cased query, in insertion order. */
    function BuscarLibrosPorAutor(autor: string): (r: seq<Libro>)
      requires Valid()
      reads this, libros.Values, usuarios.Values
      ensures forall p :: p in r ==> p in libros.Values && Text.Contains(Text.Lower(p.autor), Text.Lower(autor))
      ensures forall k :: k in libros && Text.Contains(Text.Lower(libros[k].autor), Text.Lower(autor)) ==>
        libros[k] in r
    {
      FiltrarValores(AutorContiene(autor));
      Filtrar(Valores(), AutorContiene(autor))
    }

    /** `buscar_libros_por_categoria`: exactly the stored books whose
        lower-cased category equals the lower-cased category asked for, in
        insertion order. */
    function BuscarLibrosPorCategoria(categoria: string): (r: seq<Libro>)
      requires Valid()
      reads this, libros.Values, usuarios.Values
      ensures forall p :: p in r ==> p in libros.Values && Text.Lower(categoria) == Text.Lower(p.categoria)
      ensures forall k :: k in libros && Text.Lower(categoria) == Text.Lower(libros[k].categoria) ==>
        libros[k] in r
    {
      FiltrarValores(CategoriaIgual(categoria));
      Filtrar(Valores(), CategoriaIgual(categoria))
    }

    /** `obtener_todos_los_libros`: every stored book once, in insertion
        order. */
    function ObtenerTodosLosLibros(): (r: seq<Libro>)
      requires Valid()
      reads this, libros.Values, usuarios.Values
      ensures |r| == |libros|
      ensures forall p :: p in r ==> p in libros.Values
      ensures forall k :: k in libros ==> libros[k] in r
    {
      OrdenEnLibros();
      MirarCubre(libros, orden);
      assert forall k :: k in libros ==> k in VistaLibros(libros);
      Valores()
    }

    /** `obtener_libros_disponibles`: exactly the available stored books. */
    function ObtenerLibrosDisponibles(): (r: seq<Libro>)
      requires Valid()
      reads this, libros.Values, usuarios.Values
      ensures forall p :: p in r ==> p in libros.Values && p.disponible
      ensures forall k :: k in libros && libros[k].disponible ==> libros[k] in r
    {
      FiltrarValores(Disponibles);
      Filtrar(Valores(), Disponibles)
    }

    /** `obtener_libros_prestados`: exactly the lent stored books; together
        with the available ones they number the whole catalogue. */
    function ObtenerLibrosPrestados(): (r: seq<Libro>)
      requires Valid()
      reads this, libros.Values, usuarios.Values
      ensures forall p :: p in r ==> p in libros.Values && !p.disponible
      ensures forall k :: k in libros && !libros[k].disponible ==> libros[k] in r
      ensures |r| + |ObtenerLibrosDisponibles()| == |libros|
    {
      FiltrarValores(Prestados);
      OrdenEnLibros();
      DisponiblesMasPrestados(Valores());
      Filtrar(Valores(), Prestados)
    }

    /** Under the loan invariant, the lent books are exactly the books some
        registered user holds. */
    lemma PrestadosSonLosRetenidos()
      requires Valid() && Coherente()
      ensures forall p :: p in ObtenerLibrosPrestados() ==> exists u :: u in usuarios && p.isbn in usuarios[u].prestados
      ensures forall u, k :: u in usuarios && k in usuarios[u].prestados ==> k in libros && libros[k] in ObtenerLibrosPrestados()
    {
      var ls, us := VistaLibros(libros), VistaUsuarios(usuarios);
      var r := ObtenerLibrosPrestados();
      forall p | p in r ensures exists u :: u in usuarios && p.isbn in usuarios[u].prestados {
        var k :| k in libros && libros[k] == p;
        assert ls[k].isbn == k && !ls[k].disponible;
        var u :| Tiene(us, u, k);
        assert us[u] == usuarios[u].Ficha();
      }
      forall u, k | u in usuarios && k in usuarios[u].prestados ensures k in libros && libros[k] in r {
        assert Tiene(us, u, k);
      }
    }
  }
}
