# Inventories, libraries and a task list, modelled in Dafny

This project models the stateful parts of a set of Python teaching scripts. These are
small keyed-collection stores and state machines. Each script becomes one Dafny module.
Where the Python code updates objects in place, the module has a class with those fields
and `modifies` clauses. Comprehensions, slices and string tests become functions. Loops
become methods with loop invariants.

- `InventarioAvanzado` (`inventario-avanzado.py`) is the indexed inventory. Products are
  kept in a dictionary by id. Beside it sit a category set, an index from lower-cased
  names to ids, an index from providers to lists of ids, and an append-only history of
  operations. The model keeps Python's dictionary order as the sequence of keys in
  insertion order. It proves that adding, removing and updating products keep the
  auxiliary structures consistent with the dictionary (`Coherente`). That consistency is
  what makes the unguarded lookup of `buscar_productos_por_proveedor` safe.
- `InventarioMejorado` (`gestion-inventarios-mejorado.py`) is the validated,
  list-backed inventory. Every mutation saves the list and undoes the in-memory change
  when the save fails. The save is a boolean parameter, `guardado`. The model proves
  the outcome of each mutation on both save outcomes and on every validation path,
  including which fields an update has already set when a later value is refused.
- `BibliotecaDigital` (`biblioteca.py`) is the library. Books are kept by ISBN, users by
  id, and there is a set of user ids and a loan counter. A book is available or lent; a
  user holds a list of ISBNs and a history. The model proves the operations keep a loan
  invariant (`PrestamosCoherentes`): a book is lent exactly when some registered user
  holds it, no two users hold the same book, and no loan list repeats an ISBN.
- `InventarioSimple` (`2525---PROGRAMACION-ORIENTADA-A-OBJETOS-D----UEA-L-UFB-030/gestion-inventarios.py`)
  is the unvalidated list inventory with unique ids.
- `Banco` (`EjemplosMundoReal_POO/banco.py`) is the bank account with a withdrawal guard.
- `BibliotecaSimple` (`EjemplosMundoReal_POO/biblioteca.py`) is the small library that
  lends a book only when it is present and not yet lent.
- `Tareas` (`gui-listas.py`) is the data state of the to-do list window: the texts of the tasks
  and the set of completed row numbers, which are renumbered when a row is deleted.
- The shared modules are `Wrappers` (`Option`), `Text` (Python's `strip`, `lower` and
  substring test) and `PySeq` (`list.index`, `list.remove`, the slice `s[start:]`, and
  the subsequence relation that states what a filtering list comprehension keeps).

## Behaviours of the code the model keeps

- A refused value in `actualizar_producto` does not undo the setters that already ran.
- When the save fails in `eliminar_producto`, the product comes back at the end of the
  list, not at its old position.
- When the save fails in `actualizar_producto`, the name is restored through `set_nombre`,
  which strips it (see "## Findings").
- In `biblioteca.py`, `prestar_libro` can return `False` after it has already lent the
  book: this happens when the user already holds that ISBN. Under the loan invariant this
  case cannot arise, and the model proves that.

## Model

| member | source | states |
|---|---|---|
| `InventarioAvanzado.Leer` | `inventario-avanzado.py:147-160` | `from_dict` always gives a product with quantity and price at least 0, and both are the clamped read values |
| `InventarioAvanzado.LeerEscribir` | `inventario-avanzado.py:135-160` | reading back what `to_dict` wrote gives the same product |
| `InventarioAvanzado.EscribirLeer` | `inventario-avanzado.py:135-160` | writing what `from_dict` read gives back a complete dictionary whose quantity and price were not negative |
| `InventarioAvanzado.Producto.constructor` | `inventario-avanzado.py:27-47` | quantity becomes `max(0, q)` and price `max(0.0, p)`; the other fields are stored as given |
| `InventarioAvanzado.Producto.SetNombre` | `inventario-avanzado.py:85-89` | a name that is blank after stripping is ignored; any other name is stored stripped |
| `InventarioAvanzado.Producto.SetCantidad` | `inventario-avanzado.py:91-94` | the stored quantity is `max(0, q)`, so it is never negative |
| `InventarioAvanzado.Producto.SetPrecio` | `inventario-avanzado.py:96-99` | the stored price is `max(0.0, p)`, so it is never negative |
| `InventarioAvanzado.Producto.SetCategoria` | `inventario-avanzado.py:101-104` | the category is stored stripped, even when blank |
| `InventarioAvanzado.Producto.SetProveedor` | `inventario-avanzado.py:106-109` | the provider is stored stripped, even when blank |
| `InventarioAvanzado.Producto.ActualizarStock` | `inventario-avanzado.py:111-125` | succeeds exactly when `cantidad + c >= 0`, then applies it; otherwise the quantity is unchanged; a non-negative quantity stays non-negative |
| `InventarioAvanzado.Producto.ToDict` | `inventario-avanzado.py:135-145` | every key is written, and `from_dict` reads the product back unchanged |
| `InventarioAvanzado.Escribir` | `inventario-avanzado.py:135-145` | `to_dict` writes every key, and a product with clamped quantity and price reads back unchanged at any time |
| `InventarioAvanzado.Producto.EstaEnStock` | `inventario-avanzado.py:131-133` | since the quantity is clamped at 0, a product is out of stock exactly when its quantity is 0 |
| `InventarioAvanzado.SumaCantidades` | `inventario-avanzado.py:442` | the sum of the quantities is not negative when no quantity is |
| `InventarioAvanzado.SumaMirar` | `inventario-avanzado.py:440-442` | summing the quantities of the listed products equals summing the quantities the view records for the same ids |
| `InventarioAvanzado.SumaVistaIgual` | `inventario-avanzado.py:442` | the total depends only on the quantities of the listed ids |
| `InventarioAvanzado.SumaVistaConcat` | `inventario-avanzado.py:442` | the total over two lists of ids is the sum of their totals |
| `InventarioAvanzado.SumaVistaPartir` | `inventario-avanzado.py:442` | in a duplicate-free list, the total splits at the position of an id into the part before, its quantity and the part after |
| `InventarioAvanzado.SumaVistaAnadir` | `inventario-avanzado.py:256-273` | storing a new id last raises the total by its quantity |
| `InventarioAvanzado.SumaVistaQuitar` | `inventario-avanzado.py:275-293` | removing a stored id lowers the total by its quantity |
| `InventarioAvanzado.SumaVistaCambiar` | `inventario-avanzado.py:354-372` | replacing a stored product changes the total by the difference of the quantities |
| `InventarioAvanzado.Producto.FromDict` | `inventario-avanzado.py:147-160` | a fresh valid product whose fields are those `Leer` gives, with missing category and provider as "" and a missing date as the current time |
| `InventarioAvanzado.Filtrar` | `inventario-avanzado.py:336-337` | the result is a subsequence of the input, so it keeps the input order; it holds exactly the elements that pass the test and is no longer than the input |
| `InventarioAvanzado.FiltrarConsultaVacia` | `inventario-avanzado.py:317-322` | an empty name query keeps every product, in order |
| `InventarioAvanzado.ContarSinStock` | `inventario-avanzado.py:445` | the number of products out of stock is at most the number of products |
| `InventarioAvanzado.SinStockEsStockBajoCero` | `inventario-avanzado.py:442-445` | with non-negative quantities, the products out of stock are those `productos_con_stock_bajo(0)` returns; the item total is not negative, and when it is 0 every product is out of stock |
| `InventarioAvanzado.VistaInsertar` | `inventario-avanzado.py:269` | storing a product under its id stores its fields in the view |
| `InventarioAvanzado.VistaQuitar` | `inventario-avanzado.py:290` | deleting a key deletes it from the view |
| `InventarioAvanzado.VistaEstable` | `inventario-avanzado.py:193` | the view changes only when a stored product's fields change |
| `InventarioAvanzado.MirarCubre` | `inventario-avanzado.py:349-351` | the product of every listed id is in the result |
| `InventarioAvanzado.SinProveedor` | `inventario-avanzado.py:249-254` | only the provider's own list changes and no key is added; that list loses one occurrence of the id (in a duplicate-free list, the only one, and it stays duplicate-free), and it is deleted only when the id was its sole entry |
| `InventarioAvanzado.ConProveedor` | `inventario-avanzado.py:236-241` | a non-empty provider gets a list, created if missing, that keeps its old entries first, holds the id and stays duplicate-free; an empty provider and every other list are untouched |
| `InventarioAvanzado.AgregarConservaProveedores` | `inventario-avanzado.py:236-241` | indexing a product with a new id keeps every provider list duplicate-free, non-empty and pointing to stored products of that provider, and lists every product with a provider |
| `InventarioAvanzado.QuitarListaSana` | `inventario-avanzado.py:249-254` | after a removal, each remaining provider list is still sound |
| `InventarioAvanzado.QuitarConservaProveedores` | `inventario-avanzado.py:249-254` | removing a product and un-indexing it keeps the provider index sound and complete |
| `InventarioAvanzado.AgregarConservaCoherencia` | `inventario-avanzado.py:256-273` | `agregar_producto` of a new id keeps the dictionary, key order, provider index, name index and category set consistent |
| `InventarioAvanzado.EliminarConservaCoherencia` | `inventario-avanzado.py:275-293` | `eliminar_producto` keeps all auxiliary structures consistent, although categories are never removed and the name key is deleted whoever owns it |
| `InventarioAvanzado.CambiarConservaCoherencia` | `inventario-avanzado.py:354-392` | changing a stored product's quantity or price within the clamping keeps the inventory consistent |
| `InventarioAvanzado.OrdenCuenta` | `inventario-avanzado.py:653-655` | a duplicate-free key order has as many entries as the dictionary has keys |
| `InventarioAvanzado.Inventario.constructor` | `inventario-avanzado.py:185-211` | an inventory with no products, indexes or history is consistent |
| `InventarioAvanzado.Inventario.RegistrarOperacion` | `inventario-avanzado.py:213-225` | appends exactly one tuple to the history |
| `InventarioAvanzado.Inventario.ActualizarIndices` | `inventario-avanzado.py:227-241` | the lower-cased name points to the id (overwriting), a non-empty category is added, and the id is appended to its non-empty provider's list unless already there |
| `InventarioAvanzado.Inventario.LimpiarIndices` | `inventario-avanzado.py:243-254` | the name key is deleted even if another product owns it, and the provider list is updated as `SinProveedor` says |
| `InventarioAvanzado.Inventario.QuitarDeProveedor` | `inventario-avanzado.py:249-254` | the provider half of `_limpiar_indices` gives the index `SinProveedor` describes |
| `InventarioAvanzado.Inventario.AgregarProducto` | `inventario-avanzado.py:256-273` | an existing id gives `False` and changes nothing; otherwise the product is stored last in order, the size grows by one, the indexes are updated, exactly one "AGREGAR" entry is appended, the item total grows by the new quantity, and consistency is kept |
| `InventarioAvanzado.Inventario.Insertar` | `inventario-avanzado.py:269-272` | the state changes of a successful `agregar_producto` |
| `InventarioAvanzado.Inventario.EliminarProducto` | `inventario-avanzado.py:275-293` | a missing id gives `False` and changes nothing; otherwise the id is gone from the dictionary, the order and the indexes, the size drops by one, exactly one "ELIMINAR" entry is appended, the item total drops by the removed quantity, categories are untouched, and consistency is kept |
| `InventarioAvanzado.Inventario.Quitar` | `inventario-avanzado.py:288-293` | the state changes of a successful `eliminar_producto` |
| `InventarioAvanzado.Inventario.ActualizarCantidad` | `inventario-avanzado.py:354-372` | a missing id gives `False` and changes nothing; otherwise only that product's quantity changes, to `max(0, q)`, the item total changes by the difference, and one entry records the old quantity and the value asked for |
| `InventarioAvanzado.Inventario.CambiarCantidad` | `inventario-avanzado.py:365-371` | the state changes of a successful `actualizar_cantidad`, with every other product untouched |
| `InventarioAvanzado.Inventario.ActualizarPrecio` | `inventario-avanzado.py:374-392` | as `ActualizarCantidad`, for the clamped price and an "ACTUALIZAR_PRECIO" entry |
| `InventarioAvanzado.Inventario.CambiarPrecio` | `inventario-avanzado.py:385-391` | the state changes of a successful `actualizar_precio` |
| `InventarioAvanzado.Inventario.OrdenEnProductos` | `inventario-avanzado.py:394-401` | under the invariant every id of the order is stored, and there are as many products as ids |
| `InventarioAvanzado.Inventario.FiltrarValores` | `inventario-avanzado.py:336-337` | filtering the products in insertion order keeps exactly the stored products that pass the test |
| `InventarioAvanzado.Inventario.BuscarPorId` | `inventario-avanzado.py:295-305` | `dict.get`: a product exactly when the id is stored, and that product carries the id asked for |
| `InventarioAvanzado.Inventario.Contiene` | `inventario-avanzado.py:657-659` | `in` holds exactly for the ids in the key order |
| `InventarioAvanzado.Inventario.Len` | `inventario-avanzado.py:653-655` | under the invariant, `len` is the number of ids in insertion order |
| `InventarioAvanzado.Inventario.BuscarPorNombre` | `inventario-avanzado.py:307-324` | the loop returns the name filter over the products in insertion order |
| `InventarioAvanzado.Inventario.RecorrerPorNombre` | `inventario-avanzado.py:317-324` | the accumulating loop builds exactly the filtered sequence |
| `InventarioAvanzado.Inventario.BuscarPorNombreExacto` | `inventario-avanzado.py:307-324` | the name search returns exactly the stored products whose lower-cased name contains the lower-cased query, and every product, in order, for the empty query |
| `InventarioAvanzado.Inventario.BuscarPorCategoria` | `inventario-avanzado.py:326-337` | exactly the stored products whose lower-cased category equals the lower-cased category asked for, as a subsequence of the products in insertion order |
| `InventarioAvanzado.Inventario.ProductosConStockBajo` | `inventario-avanzado.py:479-490` | exactly the stored products with quantity at most the threshold, 5 by default, as a subsequence of the products in insertion order |
| `InventarioAvanzado.Inventario.ObtenerTodos` | `inventario-avanzado.py:394-401` | every stored product, once each |
| `InventarioAvanzado.Inventario.ObtenerCategorias` | `inventario-avanzado.py:403-410` | the set holds every non-empty category of a stored product |
| `InventarioAvanzado.Inventario.ObtenerProveedores` | `inventario-avanzado.py:412-419` | the providers are exactly the non-empty providers of the stored products |
| `InventarioAvanzado.Inventario.ProveedoresExactos` | `inventario-avanzado.py:236-254` | the provider index has a key exactly for each non-empty provider of a stored product |
| `InventarioAvanzado.Inventario.BuscarPorProveedor` | `inventario-avanzado.py:339-352` | every listed id is stored, so the lookup is safe; the result holds each stored product of that provider exactly once and nothing else; the empty provider gives `[]` |
| `InventarioAvanzado.Inventario.ListaProveedor` | `inventario-avanzado.py:349-351` | a provider's list holds stored ids of that provider without repetition, and all of them |
| `InventarioAvanzado.Inventario.ObtenerEstadisticas` | `inventario-avanzado.py:421-465` | the number of products; an item total equal to the sum of the quantities of the products in insertion order, so not negative; the products out of stock (all of them when there are no items); and the category and provider counts exactly when there are products |
| `InventarioAvanzado.Inventario.CantidadesNoNegativas` | `inventario-avanzado.py:42` | every stored product's quantity is at least 0 |
| `InventarioAvanzado.Inventario.Historial` | `inventario-avanzado.py:467-477` | `historial[-limite:]`: the last `min(limite, n)` entries for a positive limit, the whole history for 0, and all but the first `-limite` for a negative limit |
| `InventarioMejorado.Asignar` | `gestion-inventarios-mejorado.py:324-331` | the setters run in the order name, quantity, price and stop at the first refusal: the flag is true exactly when every given value passes its check, and then the given fields (the name stripped) are set and the others kept; a refused name sets nothing; a refused quantity keeps the accepted name and leaves the price alone; a refused price keeps the accepted name and quantity; an accepted name or quantity stays set whatever follows |
| `InventarioMejorado.Restaurar` | `gestion-inventarios-mejorado.py:346-349` | the rollback through the setters brings back saved values that pass the checks, the name stripped, and a blank saved name stops it before anything is restored |
| `InventarioMejorado.Actualizar` | `gestion-inventarios-mejorado.py:316-358` | the update returns true exactly when the setters and the save all succeed, and only a failed save rolls back: a refused value leaves the setters' partial work in place |
| `InventarioMejorado.ActualizarExacto` | `gestion-inventarios-mejorado.py:346-351` | the corrected update returns the same flag and gives back the saved fields unchanged after a failed save |
| `InventarioMejorado.ActualizarExito` | `gestion-inventarios-mejorado.py:316-344` | the update succeeds exactly when every given value passes its setter's check and the save succeeds; it then sets exactly the given fields |
| `InventarioMejorado.ActualizarRollback` | `gestion-inventarios-mejorado.py:345-351` | after a failed save the saved quantity and price and the stripped saved name are back, so a stored stripped name gives back the product exactly |
| `InventarioMejorado.ValidacionSinRollback` | `gestion-inventarios-mejorado.py:324-355` | a quantity refused after an accepted name returns `False` and keeps the new name; nothing is rolled back |
| `InventarioMejorado.PrecioRechazadoSinRollback` | `gestion-inventarios-mejorado.py:330-355` | a price refused after an accepted name and quantity returns `False` and keeps both; nothing is rolled back |
| `InventarioMejorado.NombreRechazadoSinCambios` | `gestion-inventarios-mejorado.py:326-355` | a refused name returns `False` with the product unchanged, since no setter has run |
| `InventarioMejorado.AsignarConservaValido` | `gestion-inventarios-mejorado.py:62-81` | the setters only ever store valid values |
| `InventarioMejorado.ConNombreValido` | `gestion-inventarios-mejorado.py:62-67` | `set_nombre` stores a stripped, non-blank name |
| `InventarioMejorado.ActualizarConservaValido` | `gestion-inventarios-mejorado.py:316-358` | whatever the outcome, an update keeps a valid product valid |
| `InventarioMejorado.RollbackStripsName` | `gestion-inventarios-mejorado.py:347` | a product stored as " A" comes back from a failed save as "A" |
| `InventarioMejorado.ActualizarExactoRestaura` | `gestion-inventarios-mejorado.py:346-355` | with the exact rollback, a failed save leaves the product as it was, and a successful one agrees with the code |
| `InventarioMejorado.Producto.constructor` | `gestion-inventarios-mejorado.py:23-37` | the fields are stored unchecked and the date is the current time |
| `InventarioMejorado.Producto.SetNombre` | `gestion-inventarios-mejorado.py:62-67` | fails exactly on a blank name, leaving it unchanged; otherwise stores it stripped |
| `InventarioMejorado.Producto.SetCantidad` | `gestion-inventarios-mejorado.py:69-74` | fails exactly on a negative quantity, leaving it unchanged |
| `InventarioMejorado.Producto.SetPrecio` | `gestion-inventarios-mejorado.py:76-81` | fails exactly on a price that is not above 0, leaving it unchanged |
| `InventarioMejorado.FiltrarPorNombre` | `gestion-inventarios-mejorado.py:378-379` | a subsequence of the list, so in list order, holding exactly the products whose lower-cased name contains the query |
| `InventarioMejorado.FiltrarBajoStock` | `gestion-inventarios-mejorado.py:417` | a subsequence of the list, so in list order, holding exactly the products with quantity at most the threshold |
| `InventarioMejorado.RemovedIds` | `gestion-inventarios-mejorado.py:283` | removing one position removes that position from the id list |
| `InventarioMejorado.EliminarEn` | `gestion-inventarios-mejorado.py:280-292` | in a list with unique ids, `remove` takes out the first product with the id, and re-appending it restores the same products with unique ids |
| `InventarioMejorado.Inventario.constructor` | `gestion-inventarios-mejorado.py:112-123` | an empty list, which is valid |
| `InventarioMejorado.Inventario.AgregarProducto` | `gestion-inventarios-mejorado.py:224-266` | succeeds exactly for a new id, a non-blank name, a quantity of at least 0, a price above 0 and a successful save, and the product is then last; on every failure, a failed save included, the list is as before; ids stay unique |
| `InventarioMejorado.Inventario.EliminarProducto` | `gestion-inventarios-mejorado.py:268-301` | a missing id changes nothing; otherwise the first product with the id is removed, and when the save fails it is re-appended: the same multiset, with that product last |
| `InventarioMejorado.Inventario.Posicion` | `gestion-inventarios-mejorado.py:280-284` | the search loop finds the first product with the id, or the end of the list when there is none |
| `InventarioMejorado.Inventario.QuitarEn` | `gestion-inventarios-mejorado.py:283-292` | removes the product at the position found, re-appends it when the save fails, and keeps ids unique |
| `InventarioMejorado.Inventario.ActualizarProducto` | `gestion-inventarios-mejorado.py:303-362` | a missing id gives `False`; otherwise the product with that id gets the fields and result `Actualizar` describes, the list and every other product are untouched, no creation date changes, and all stay valid |
| `InventarioMejorado.ActualizarCampos` | `gestion-inventarios-mejorado.py:319-355` | the setters, the save and the rollback on one product give exactly the outcome `Actualizar` describes, and the creation date is untouched |
| `InventarioMejorado.Inventario.BuscarPorNombre` | `gestion-inventarios-mejorado.py:364-384` | a blank query gives `[]`; otherwise exactly the products whose lower-cased name contains the lower-cased, stripped query, as a subsequence of the list, so in list order |
| `InventarioMejorado.Inventario.BuscarPorId` | `gestion-inventarios-mejorado.py:386-404` | the first product with the id, or `None` exactly when there is none |
| `InventarioMejorado.Inventario.ObtenerProductosBajoStock` | `gestion-inventarios-mejorado.py:406-420` | exactly the products with quantity at most the threshold, 5 by default, as a subsequence of the list |
| `BibliotecaDigital.Libro.constructor` | `biblioteca.py:27-42` | a new book is available |
| `BibliotecaDigital.Libro.SetCategoria` | `biblioteca.py:59-62` | only the category changes |
| `BibliotecaDigital.Libro.Prestar` | `biblioteca.py:74-84` | succeeds exactly on an available book, which is then lent; a failed call changes nothing |
| `BibliotecaDigital.Libro.Devolver` | `biblioteca.py:86-96` | succeeds exactly on a lent book, which is then available; a failed call changes nothing |
| `BibliotecaDigital.Usuario.constructor` | `biblioteca.py:132-143` | a new user holds no books and has an empty history |
| `BibliotecaDigital.Usuario.SetNombre` | `biblioteca.py:151-154` | only the name changes |
| `BibliotecaDigital.Usuario.PrestarLibro` | `biblioteca.py:171-190` | succeeds exactly when the ISBN is not held, then appends it and one "prestamo" entry; otherwise nothing changes; a duplicate-free list stays duplicate-free; either way the user then holds the ISBN |
| `BibliotecaDigital.Usuario.DevolverLibro` | `biblioteca.py:192-211` | succeeds exactly when the ISBN is held, then removes it and appends one "devolucion" entry; in a duplicate-free list the user then no longer holds the ISBN (`tiene_libro` is false) |
| `BibliotecaDigital.Usuario.TieneLibro` | `biblioteca.py:213-215` | holds exactly when the ISBN occurs in the loans, and in a duplicate-free list it then occurs exactly once |
| `BibliotecaDigital.PrestamoEfecto` | `biblioteca.py:181-189` | a loan keeps the name and id, grows the loans and the history by one each with the old ones as prefixes, makes the ISBN held, ends the history with one "prestamo" entry, and keeps a duplicate-free list duplicate-free when the ISBN is new |
| `BibliotecaDigital.ConDevolucion` | `biblioteca.py:202-209` | a return keeps the name and id, takes one occurrence of the ISBN out of the loans (in a duplicate-free list the only one, keeping every other ISBN and no duplicates), and ends the history, which grows by one, with one "devolucion" entry |
| `BibliotecaDigital.LibroSustituido` | `biblioteca.py:456` | when only one stored book changed, the view changes only at its key |
| `BibliotecaDigital.UsuarioSustituido` | `biblioteca.py:456` | when only one user changed, the view changes only at their key |
| `BibliotecaDigital.LibrosInsertar` | `biblioteca.py:284` | storing a book under its ISBN stores its fields in the view |
| `BibliotecaDigital.LibrosQuitar` | `biblioteca.py:304` | deleting an ISBN deletes it from the view |
| `BibliotecaDigital.UsuariosInsertar` | `biblioteca.py:385` | storing a user under their id stores their fields in the view |
| `BibliotecaDigital.UsuariosQuitar` | `biblioteca.py:406` | deleting an id deletes it from the view |
| `BibliotecaDigital.LibrosEstables` | `biblioteca.py:457` | the view of the books changes only when a stored book's fields change |
| `BibliotecaDigital.UsuariosEstables` | `biblioteca.py:457` | the view of the users changes only when a user's fields change |
| `BibliotecaDigital.AnadirConserva` | `biblioteca.py:283-289` | adding a book with a new ISBN keeps the shape, and adding an available one keeps the loan invariant |
| `BibliotecaDigital.QuitarConserva` | `biblioteca.py:301-312` | removing an available book keeps the shape and the loan invariant |
| `BibliotecaDigital.RegistrarConserva` | `biblioteca.py:384-391` | registering a new id keeps the id set equal to the registry's keys, and a user without loans keeps the loan invariant |
| `BibliotecaDigital.BajaConserva` | `biblioteca.py:403-415` | deregistering a user without loans keeps the shape and the loan invariant |
| `BibliotecaDigital.PrestamoConserva` | `biblioteca.py:456-462` | lending an available book keeps the shape; under the loan invariant the user cannot already hold it, so the loan succeeds and the invariant is kept |
| `BibliotecaDigital.DevolucionConserva` | `biblioteca.py:493-498` | returning a held book keeps the shape; under the loan invariant the book is lent, so the return succeeds and the invariant is kept |
| `BibliotecaDigital.MirarCubre` | `biblioteca.py:360-362` | the book of every listed key is in the result |
| `BibliotecaDigital.Presentes` | `biblioteca.py:514-518` | the stored books among the keys, each key's book appearing, nothing else |
| `BibliotecaDigital.PresentesTodos` | `biblioteca.py:514-518` | when every key is stored, nothing is skipped |
| `BibliotecaDigital.Filtrar` | `biblioteca.py:318-370` | exactly the books that pass the test, and no more books than the input |
| `BibliotecaDigital.FiltrarOrden` | `biblioteca.py:318-370` | every query's result is a subsequence of the catalogue, so the books keep insertion order |
| `BibliotecaDigital.FiltrarTituloVacio` | `biblioteca.py:318-330` | an empty title query keeps every book, in order |
| `BibliotecaDigital.DisponiblesMasPrestados` | `biblioteca.py:364-370` | the available and the lent books split the catalogue |
| `BibliotecaDigital.OrdenCuenta` | `biblioteca.py:360-362` | a duplicate-free list of exactly the keys has one entry per book |
| `BibliotecaDigital.Biblioteca.constructor` | `biblioteca.py:253-269` | an empty library, "Biblioteca Digital" by default, with no loans, that is consistent |
| `BibliotecaDigital.Biblioteca.AnadirLibro` | `biblioteca.py:273-289` | an existing ISBN gives `False` and changes nothing; otherwise the book is stored last in order; the shape is kept, and the loan invariant too when the new book is available |
| `BibliotecaDigital.Biblioteca.QuitarLibro` | `biblioteca.py:291-312` | succeeds exactly on a stored, available book, which is removed; a missing or lent book changes nothing; both invariants are kept |
| `BibliotecaDigital.Biblioteca.BuscarLibroPorIsbn` | `biblioteca.py:314-316` | `dict.get`: the book exactly when the ISBN is stored |
| `BibliotecaDigital.Biblioteca.BuscarUsuario` | `biblioteca.py:417-419` | `dict.get`: the user exactly when the id is registered |
| `BibliotecaDigital.Biblioteca.RegistrarUsuario` | `biblioteca.py:374-391` | an id already in the id set gives `False` and changes nothing; otherwise the user is stored and the id added; the id set stays the registry's key set |
| `BibliotecaDigital.Biblioteca.DarDeBajaUsuario` | `biblioteca.py:393-415` | succeeds exactly for a registered user holding no books, who is removed from the registry and the id set; both invariants are kept |
| `BibliotecaDigital.Biblioteca.PrestarLibro` | `biblioteca.py:427-462` | succeeds exactly when the book is stored and available, the user is registered and does not hold it; the book is then lent, the ISBN added to the user's loans and the counter grows by one; a refused call changes nothing but, when the user held the ISBN, the book's flag; under the loan invariant the result depends only on the three checks and the invariant is kept |
| `BibliotecaDigital.Biblioteca.Prestamo` | `biblioteca.py:456` | the lending step changes only that book and that user |
| `BibliotecaDigital.Biblioteca.DevolverLibro` | `biblioteca.py:464-498` | succeeds exactly when the book is stored and lent and the registered user holds it; then the book is available and the ISBN leaves the user's loans; otherwise nothing changes; the counter never changes; under the loan invariant the result depends only on the three checks and the invariant is kept |
| `BibliotecaDigital.Biblioteca.Devolucion` | `biblioteca.py:493` | the returning step changes only that book and that user |
| `BibliotecaDigital.Biblioteca.ListarLibrosPrestadosUsuario` | `biblioteca.py:500-520` | an unknown user gives `[]`; otherwise the stored books among the user's ISBNs, in loan order |
| `BibliotecaDigital.Biblioteca.PrestadosDelUsuario` | `biblioteca.py:500-520` | under the loan invariant the listing skips nothing: one lent book per ISBN held |
| `BibliotecaDigital.Biblioteca.OrdenEnLibros` | `biblioteca.py:360-362` | every key of the order is stored, and there are as many books as keys |
| `BibliotecaDigital.Biblioteca.FiltrarValores` | `biblioteca.py:318-370` | filtering the books in insertion order keeps exactly the stored books that pass the test |
| `BibliotecaDigital.Biblioteca.BuscarLibrosPorTitulo` | `biblioteca.py:318-330` | exactly the stored books whose lower-cased title contains the lower-cased query, and all of them for the empty query |
| `BibliotecaDigital.Biblioteca.BuscarLibrosPorAutor` | `biblioteca.py:332-344` | exactly the stored books whose lower-cased author contains the lower-cased query |
| `BibliotecaDigital.Biblioteca.BuscarLibrosPorCategoria` | `biblioteca.py:346-358` | exactly the stored books whose lower-cased category equals the lower-cased category asked for |
| `BibliotecaDigital.Biblioteca.ObtenerTodosLosLibros` | `biblioteca.py:360-362` | every stored book, once each |
| `BibliotecaDigital.Biblioteca.ObtenerLibrosDisponibles` | `biblioteca.py:364-366` | exactly the available stored books |
| `BibliotecaDigital.Biblioteca.ObtenerLibrosPrestados` | `biblioteca.py:368-370` | exactly the lent stored books, which together with the available ones make up the catalogue |
| `BibliotecaDigital.Biblioteca.PrestadosSonLosRetenidos` | `biblioteca.py:368-370` | under the loan invariant the lent books are exactly the books some user holds |
| `InventarioSimple.Producto.constructor` | `2525---PROGRAMACION-ORIENTADA-A-OBJETOS-D----UEA-L-UFB-030/gestion-inventarios.py:5-9` | the fields are stored as given |
| `InventarioSimple.Producto.SetNombre` | `2525---PROGRAMACION-ORIENTADA-A-OBJETOS-D----UEA-L-UFB-030/gestion-inventarios.py:25-26` | the name is set, unchecked |
| `InventarioSimple.Producto.SetCantidad` | `2525---PROGRAMACION-ORIENTADA-A-OBJETOS-D----UEA-L-UFB-030/gestion-inventarios.py:28-29` | the quantity is set, unchecked |
| `InventarioSimple.Producto.SetPrecio` | `2525---PROGRAMACION-ORIENTADA-A-OBJETOS-D----UEA-L-UFB-030/gestion-inventarios.py:31-32` | the price is set, unchecked |
| `InventarioSimple.FiltrarPorNombre` | `2525---PROGRAMACION-ORIENTADA-A-OBJETOS-D----UEA-L-UFB-030/gestion-inventarios.py:77` | a subsequence of the list, so in list order, holding exactly the products whose lower-cased name contains the lower-cased query |
| `InventarioSimple.RemovedIds` | `2525---PROGRAMACION-ORIENTADA-A-OBJETOS-D----UEA-L-UFB-030/gestion-inventarios.py:56` | removing one position removes that position from the id list |
| `InventarioSimple.Inventario.constructor` | `2525---PROGRAMACION-ORIENTADA-A-OBJETOS-D----UEA-L-UFB-030/gestion-inventarios.py:40-41` | an empty list, which is valid |
| `InventarioSimple.Inventario.AgregarProducto` | `2525---PROGRAMACION-ORIENTADA-A-OBJETOS-D----UEA-L-UFB-030/gestion-inventarios.py:44-50` | an existing id gives `False` and no change; otherwise the product is appended; ids stay unique |
| `InventarioSimple.Inventario.EliminarProducto` | `2525---PROGRAMACION-ORIENTADA-A-OBJETOS-D----UEA-L-UFB-030/gestion-inventarios.py:53-60` | a missing id gives `False` and no change; otherwise the first product with the id is removed and the id is gone |
| `InventarioSimple.Inventario.ActualizarProducto` | `2525---PROGRAMACION-ORIENTADA-A-OBJETOS-D----UEA-L-UFB-030/gestion-inventarios.py:63-73` | a missing id gives `False` and no change; otherwise only the given quantity and price of that product are set, unchecked, and the name and every other product are untouched |
| `InventarioSimple.Inventario.BuscarPorNombre` | `2525---PROGRAMACION-ORIENTADA-A-OBJETOS-D----UEA-L-UFB-030/gestion-inventarios.py:76-78` | exactly the products whose lower-cased name contains the lower-cased query, as a subsequence of the list, so in list order |
| `Banco.CuentaBancaria.constructor` | `EjemplosMundoReal_POO/banco.py:6-8` | the given holder and balance, 0 by default |
| `Banco.CuentaBancaria.Depositar` | `EjemplosMundoReal_POO/banco.py:10-12` | the balance grows by exactly the amount; the holder, a constant, does not change |
| `Banco.CuentaBancaria.Retirar` | `EjemplosMundoReal_POO/banco.py:15-21` | an amount the balance covers is taken out and the balance stays at least 0; a larger one changes nothing |
| `BibliotecaSimple.Libro.constructor` | `EjemplosMundoReal_POO/biblioteca.py:6-9` | a new book is not lent |
| `BibliotecaSimple.Usuario.constructor` | `EjemplosMundoReal_POO/biblioteca.py:13-14` | the name is stored |
| `BibliotecaSimple.Biblioteca.constructor` | `EjemplosMundoReal_POO/biblioteca.py:18-19` | an empty list of books |
| `BibliotecaSimple.Biblioteca.AgregarLibro` | `EjemplosMundoReal_POO/biblioteca.py:21-23` | exactly that book is appended at the end |
| `BibliotecaSimple.Biblioteca.PrestarLibro` | `EjemplosMundoReal_POO/biblioteca.py:26-32` | the book becomes lent exactly when it is in the library and not yet lent; otherwise nothing changes; the list of books never changes |
| `Tareas.Row` | `gui-listas.py:64-69` | a row ends with its task's text and is exactly as long as that text plus the mark, and a completed task's row starts with the check mark |
| `Tareas.Reindex` | `gui-listas.py:57` | after deleting row `i`, every mark below `i` stays, every mark above `i` moves down by one, and every new mark comes from one of those |
| `Tareas.ReindexMembership` | `gui-listas.py:57` | after deleting row `i`, rows below `i` keep their mark, rows above move down by one with their mark, and `i` is dropped |
| `Tareas.ReindexBounded` | `gui-listas.py:57` | every renumbered index is below the new number of tasks |
| `Tareas.DeleteKeepsMarks` | `gui-listas.py:56-57` | every task marked done before a delete, other than the deleted one, is still marked done at its new position |
| `Tareas.TaskManager.constructor` | `gui-listas.py:8-9` | no tasks and no marks |
| `Tareas.TaskManager.AddTask` | `gui-listas.py:31-38` | a non-blank entry is appended stripped; a blank one changes nothing; marks are untouched |
| `Tareas.TaskManager.MarkCompleted` | `gui-listas.py:43-50` | the selected row is added to the marks, so marking it again changes nothing; no selection changes nothing |
| `Tareas.TaskManager.DeleteTask` | `gui-listas.py:52-60` | exactly the selected position is removed, the others keep their order, and the marks are renumbered; no selection changes nothing |
| `Tareas.TaskManager.UpdateListbox` | `gui-listas.py:62-69` | one row per task, in order, with the check mark in front of exactly the completed ones |
| `Text.Strip` | `gestion-inventarios-mejorado.py:64-65` | `str.strip()`: removes only whitespace, from both ends, and leaves no whitespace at either end |
| `Text.StripEmptyIffBlank` | `gestion-inventarios-mejorado.py:64` | `not s.strip()` holds exactly for the strings made only of whitespace |
| `Text.StripIdempotent` | `gestion-inventarios-mejorado.py:65` | stripping twice is stripping once |
| `Text.Lower` | `inventario-avanzado.py:317` | `str.lower()` keeps the length, leaves no capital, and keeps every other character |
| `Text.LowerIdempotent` | `inventario-avanzado.py:317` | lower-casing twice is lower-casing once |
| `Text.ContainsEmpty` | `inventario-avanzado.py:321` | the empty string is in every string |
| `Text.ContainsLower` | `inventario-avanzado.py:321` | a case-insensitive search finds every case-sensitive match |
| `Text.Contains` | `gestion-inventarios-mejorado.py:379` | the substring test can hold only for a needle no longer than the haystack, and always holds for a prefix, the whole string included |
| `PySeq.IndexOf` | `gestion-inventarios-mejorado.py:280-283` | the position of the first occurrence |
| `PySeq.RemoveFirst` | `gestion-inventarios-mejorado.py:283` | `list.remove` takes out one occurrence and nothing else |
| `PySeq.RemoveFirstDistinct` | `inventario-avanzado.py:252` | in a duplicate-free list, `remove` takes out every occurrence and keeps the list duplicate-free |
| `PySeq.DistinctCount` | `biblioteca.py:213-215` | in a duplicate-free list a present element occurs exactly once |
| `PySeq.SubsequenceCons` | `gestion-inventarios-mejorado.py:378-379` | a list comprehension over one more leading element keeps the result a subsequence, whether that element is kept or not |
| `PySeq.SubsequenceSnoc` | `inventario-avanzado.py:336-337` | a list comprehension over one more trailing element keeps the result a subsequence, whether that element is kept or not |
| `PySeq.RemoveAppended` | `gestion-inventarios-mejorado.py:254-260` | removing what was just appended, when it was not there before, gives back the list |
| `PySeq.SliceFrom` | `inventario-avanzado.py:477` | Python's slice `s[start:]`, for negative starts too, is a suffix of the expected length |

## Left out

- File I/O, JSON and backups are not modelled: `guardar_en_archivo`, `cargar_desde_archivo`, `guardar_inventario`, `cargar_inventario`, `_crear_backup`, `_crear_archivo_vacio`, the rename, and the saving and loading of `biblioteca.py`. A save is the boolean parameter `guardado`, and the constructors model a missing or empty file.
- Menus, input loops, `print`, `__str__`/`__repr__` and the report writers are console glue, so they are left out, as are `mostrar_estadisticas` and `generar_reporte_usuarios` of `biblioteca.py`.
- Timestamps from `datetime.now()` are string parameters (`ahora`, `marca`, `fecha`). The text of the history entries of `inventario-avanzado.py` is the datatype `Detalle`, not formatted text.
- Prices are `real`. No float rounding is modelled, and neither are `calcular_valor_total`, `valor_total_inventario`, or the most and least expensive products of `obtener_estadisticas`.
- InventarioAvanzado.Inventario.ObtenerEstadisticas: does not model the most popular category, which is a maximum over a counting dictionary with ties decided by dictionary order.
- InventarioAvanzado.Inventario.ObtenerProveedores: returns the set of provider keys, not the list in insertion order.
- `Usuario.libros_prestados`, `cantidad_libros_prestados`, `obtener_todos_los_usuarios` and the dictionary conversions of `biblioteca.py` are read-only accessors with nothing to state beyond a copy, so they are left out.
- InventarioAvanzado.Inventario.AgregarProducto: consistency is proved for the stored products' fields as they are; a product changed later through its own setters, outside the inventory, can break the name and provider indexes, as in Python.
- BibliotecaDigital.Biblioteca.AnadirLibro: keeps the loan invariant only for an available book, because a lent `Libro` object can be added from outside.
- BibliotecaDigital.Biblioteca.RegistrarUsuario: keeps the loan invariant only for a user without loans, because a `Usuario` object can hold ISBNs before registration.
- InventarioMejorado.Inventario.AgregarProducto and the other mutators require the class invariant (unique ids, valid products), which every mutator keeps; a list changed from outside the class is not modelled.
- `Text.Lower` covers ASCII and the Latin-1 capitals only. Other Unicode case mappings are left out, since the scripts handle Spanish text.
- The `except Exception` branches of `gestion-inventarios-mejorado.py` catch nothing the modelled code can raise once I/O is out, so they are left out.
- The Tk widgets and message boxes of `gui-listas.py` are left out. The entry text and the list-box selection are parameters.
- The other scripts of the repository (the dashboard, the GUI examples, and the demos for pets, schools, reservations, stores, temperatures and file handles) are not part of this model.

## Findings

| source | as written | input that shows it | evidently intended | confidence | as-written member | corrected member |
|---|---|---|---|---|---|---|
| `gestion-inventarios-mejorado.py:347` | the rollback after a failed save restores the name through `set_nombre`, which strips it | a product created with the name " A", updated with the name "B" when the save fails, ends with the name "A", not " A" | the product is put back exactly as before the call | not executed | `InventarioMejorado.RollbackStripsName` | `InventarioMejorado.ActualizarExactoRestaura` |

`InventarioMejorado.Inventario.ActualizarProducto` keeps the behaviour of the code as
written, through `Actualizar`. `ActualizarExacto` is the corrected update, and
`ActualizarExactoRestaura` proves that it restores the product exactly after a failed
save. `ActualizarRollback` proves that the two agree on every product whose name is
already stripped. That covers every product whose name was last set through `set_nombre`.
