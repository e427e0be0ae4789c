/** The restaurant-order models of the Builder demonstration: dish categories,
    dishes, ordered items and the four-list order, together with the pure
    effect that one `set` call of the builder has on an existing order. */
module Modelos {

  /** Swift's optional (`T?`). */
  datatype Option<+T> = None | Some(value: T)

  /** `CategoriaPlato`: the four courses of an order. */
  datatype CategoriaPlato = Entradas | PlatoPrincipal | Guarnisiones | Bebidas

  /** `Plato`: a dish. Its `Float` price is kept only as the raw IEEE-754
      binary32 bit pattern and is never interpreted: nothing in the builder
      looks at it, and dishes are told apart by name alone. */
  datatype Plato = Plato(nombre: string, precio: bv32)

  /** `ArticuloOrdenado`: a dish together with how many of it were ordered. */
  datatype ArticuloOrdenado = ArticuloOrdenado(plato: Plato, cuantos: int)

  /** `Orden`: one list of ordered items per category. */
  datatype Orden = Orden(
    entradas: seq<ArticuloOrdenado>,
    platoPrincipal: seq<ArticuloOrdenado>,
    guarnisiones: seq<ArticuloOrdenado>,
    bebidas: seq<ArticuloOrdenado>)
  {
    /** The list of this order that holds category `c`. */
    function Categoria(c: CategoriaPlato): seq<ArticuloOrdenado>
    {
      match c
      case Entradas => entradas
      case PlatoPrincipal => platoPrincipal
      case Guarnisiones => guarnisiones
      case Bebidas => bebidas
    }

    /** The `switch` of the builder's `set`: append `a` to the list of
        category `c`, and to no other list. */
    function Anexar(c: CategoriaPlato, a: ArticuloOrdenado): (r: Orden)
      ensures r.Categoria(c) == Categoria(c) + [a]
      ensures forall d :: d != c ==> r.Categoria(d) == Categoria(d)
    {
      match c
      case Entradas => this.(entradas := entradas + [a])
      case PlatoPrincipal => this.(platoPrincipal := platoPrincipal + [a])
      case Guarnisiones => this.(guarnisiones := guarnisiones + [a])
      case Bebidas => this.(bebidas := bebidas + [a])
    }
  }

  /** `Orden()`: the order built by the default initialisers, every list empty. */
  function OrdenVacia(): (r: Orden)
    ensures forall c :: r.Categoria(c) == []
  {
    Orden([], [], [], [])
  }

  /** The comparison of dish names. Swift's `==` on `String` holds for
      canonically equivalent strings (`"Caf\u{E9}"` and `"Cafe\u{301}"`),
      not only for identical ones; the model takes that comparison as a
      parameter and proves every property for any relation, or for any
      reflexive one where a property needs a name to match itself. */
  type Igualdad = (string, string) -> bool

  /** Every name matches itself, as it does under Swift's `==`. */
  ghost predicate Reflexiva(igual: Igualdad)
  {
    forall s :: igual(s, s)
  }

  /** Some item of `items` is for a dish whose name matches `nombre`, in the
      direction the lookup compares them (stored name first). */
  ghost predicate Nombrado(items: seq<ArticuloOrdenado>, nombre: string, igual: Igualdad)
  {
    exists a :: a in items && igual(a.plato.nombre, nombre)
  }

  /** `filter { $0.plato.nombre == nombre }.first`: the first item of `items`
      whose dish name matches `nombre`, if there is one. */
  function PrimeroConNombre(items: seq<ArticuloOrdenado>, nombre: string, igual: Igualdad): (r: Option<ArticuloOrdenado>)
    ensures r.None? <==> !Nombrado(items, nombre, igual)
    ensures r.Some? ==> exists i :: 0 <= i < |items| && items[i] == r.value && igual(r.value.plato.nombre, nombre) &&
                                    forall j :: 0 <= j < i ==> !igual(items[j].plato.nombre, nombre)
  {
    if items == [] then None
    else if igual(items[0].plato.nombre, nombre) then Some(items[0])
    else
      var r := PrimeroConNombre(items[1..], nombre, igual);
      assert forall a :: a in items <==> a == items[0] || a in items[1..];
      if r.Some? then
        ghost var i :| 0 <= i < |items[1..]| && items[1..][i] == r.value && igual(r.value.plato.nombre, nombre) &&
                       forall j :: 0 <= j < i ==> !igual(items[1..][j].plato.nombre, nombre);
        assert items[i + 1] == r.value;
        r
      else r
  }

  /** No item of `items` has a name that an earlier item's name matches. */
  ghost predicate NombresUnicos(items: seq<ArticuloOrdenado>, igual: Igualdad)
  {
    forall i, j :: 0 <= i < j < |items| ==> !igual(items[i].plato.nombre, items[j].plato.nombre)
  }

  /** Every item of `items` was ordered exactly once. */
  ghost predicate CuantosUno(items: seq<ArticuloOrdenado>)
  {
    forall a :: a in items ==> a.cuantos == 1
  }

  /** The invariant the builder keeps for its order: in each category the
      dish names are pairwise distinct under `igual` and every count is 1. */
  ghost predicate Valida(o: Orden, igual: Igualdad)
  {
    forall c :: NombresUnicos(o.Categoria(c), igual) && CuantosUno(o.Categoria(c))
  }

  /** What one `set(plato:con:conCategory:)` call does to an order that
      exists. A dish whose name matches one already in category `c` changes
      nothing, whatever its price (the count is raised on a copy that is
      never stored). Any other dish is appended at the end of category `c`
      with count 1, so that list grows by one. The other lists never change. */
  function AgregarPlato(o: Orden, plato: Plato, c: CategoriaPlato, igual: Igualdad): (r: Orden)
    ensures Nombrado(o.Categoria(c), plato.nombre, igual) ==> r == o
    ensures !Nombrado(o.Categoria(c), plato.nombre, igual) ==>
              r.Categoria(c) == o.Categoria(c) + [ArticuloOrdenado(plato, 1)]
    ensures forall d :: d != c ==> r.Categoria(d) == o.Categoria(d)
  {
    if PrimeroConNombre(o.Categoria(c), plato.nombre, igual).Some? then o
    else o.Anexar(c, ArticuloOrdenado(plato, 1))
  }

  /** After an addition, category `c` holds an item whose name the dish's
      name matches: either the one that was already there or the dish itself. */
  lemma AgregarPlatoNombra(o: Orden, plato: Plato, c: CategoriaPlato, igual: Igualdad)
    requires Reflexiva(igual)
    ensures Nombrado(AgregarPlato(o, plato, c, igual).Categoria(c), plato.nombre, igual)
  {
  }

  /** Adding the same dish twice to a category is the same as adding it once. */
  lemma AgregarPlatoIdempotente(o: Orden, plato: Plato, c: CategoriaPlato, igual: Igualdad)
    requires Reflexiva(igual)
    ensures AgregarPlato(AgregarPlato(o, plato, c, igual), plato, c, igual) == AgregarPlato(o, plato, c, igual)
  {
  }

  /** Additions to two different categories do not interfere: their order
      does not matter. */
  lemma AgregarPlatoConmuta(o: Orden, p: Plato, c: CategoriaPlato, q: Plato, d: CategoriaPlato, igual: Igualdad)
    requires c != d
    ensures AgregarPlato(AgregarPlato(o, p, c, igual), q, d, igual) == AgregarPlato(AgregarPlato(o, q, d, igual), p, c, igual)
  {
  }

  /** Every addition keeps the order valid: names stay distinct within each
      category and every count stays 1. */
  lemma AgregarPlatoPreservaValida(o: Orden, plato: Plato, c: CategoriaPlato, igual: Igualdad)
    requires Valida(o, igual)
    ensures Valida(AgregarPlato(o, plato, c, igual), igual)
  {
  }
}
