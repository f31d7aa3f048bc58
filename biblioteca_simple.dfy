/**
 * The small library teaching example (EjemplosMundoReal_POO/biblioteca.py):
 * a list of book objects, each with a lent flag. Python's `in` on a list of
 * objects without `__eq__` compares identities, which is Dafny's reference
 * equality.
 */
module BibliotecaSimple {

  class Libro {
    const titulo: string
    const autor: string
    var prestado: bool

    /** A new book is not lent. */
    constructor (titulo: string, autor: string)
      ensures this.titulo == titulo && this.autor == autor
      ensures !prestado
    {
      this.titulo := titulo;
      this.autor := autor;
      prestado := false;
    }
  }

  class Usuario {
    const nombre: string

    constructor (nombre: string)
      ensures this.nombre == nombre
    {
      this.nombre := nombre;
    }
  }

  class Biblioteca {
    var libros: seq<Libro>

    constructor ()
      ensures libros == []
    {
      libros := [];
    }

    /** `agregar_libro`: appends exactly that book at the end. */
    method AgregarLibro(libro: Libro)
      modifies this`libros
      ensures libros == old(libros) + [libro]
    {
      libros := libros + [libro];
    }

    /** `prestar_libro`: lends the book only when it belongs to this library
        and is not lent yet; otherwise no state changes. The list of books is
        never touched. */
    method PrestarLibro(libro: Libro, usuario: Usuario)
      modifies libro`prestado
      ensures libro in libros && !old(libro.prestado) ==> libro.prestado
      ensures libro !in libros || old(libro.prestado) ==> libro.prestado == old(libro.prestado)
      ensures libros == old(libros)
    {
      if libro in libros && !libro.prestado {
        libro.prestado := true;
      }
    }
  }
}
