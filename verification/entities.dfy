/**
 * The two entity kinds as the list endpoints return them.  Ids are the
 * server's integer keys; a course refers to its category by id.
 */
module Entities {
  import opened Wrappers

  datatype Categoria = Categoria(id: nat, nombre: string, descripcion: string, imagen: Option<string>)

  datatype Curso = Curso(
    id: nat,
    nombre: string,
    descripcion: string,
    duracion: int,
    precio: real,
    instructor: string,
    nivel: string,
    categoria: nat,
    activo: bool,
    imagen: Option<string>)

  function CategoriaId(c: Categoria): nat {
    c.id
  }

  function CursoId(c: Curso): nat {
    c.id
  }
}
