/** The `OrdenBuilder` of the Builder demonstration: a builder that holds an
    optional order, creates an empty one on `resetear` and adds dishes to one
    category per `set*` call. `Paso` gives the effect of each call on the
    builder's state; the class is proved against it, and the lemmas below
    say what any sequence of calls produces. Dish names are compared with
    `igual`, which stands for Swift's `==` on `String`. */
module Builder {
  import opened Modelos

  /** A call that changes the builder: `resetear()`, or one of the four
      `set*` methods, each named by the category it routes to. */
  datatype Operacion = Resetear | Agregar(categoria: CategoriaPlato, plato: Plato)

  /** The builder's state after `op`, given its state `estado` before.
      An order exists afterwards exactly when the call is `resetear` or an
      order existed before; an addition changes no category but its own. */
  function Paso(estado: Option<Orden>, op: Operacion, igual: Igualdad): (r: Option<Orden>)
    ensures r.Some? <==> op.Resetear? || estado.Some?
    ensures op.Resetear? ==> forall c :: r.value.Categoria(c) == []
    ensures op.Agregar? && estado.Some? ==>
              forall d :: d != op.categoria ==> r.value.Categoria(d) == estado.value.Categoria(d)
  {
    match op
    case Resetear => Some(OrdenVacia())
    case Agregar(c, plato) =>
      match estado
      case None => None
      case Some(o) => Some(AgregarPlato(o, plato, c, igual))
  }

  /** The builder's state after the calls `ops`, in order, from `estado`. */
  function Ejecutar(estado: Option<Orden>, ops: seq<Operacion>, igual: Igualdad): Option<Orden>
    decreases |ops|
  {
    if ops == [] then estado else Ejecutar(Paso(estado, ops[0], igual), ops[1..], igual)
  }

  /** `orden?.<category>`: the list of category `c` when there is an order,
      and nothing when there is none. */
  function CategoriaDe(orden: Option<Orden>, c: CategoriaPlato): (r: Option<seq<ArticuloOrdenado>>)
    ensures r.Some? <==> orden.Some?
    ensures r.Some? ==> r.value == orden.value.Categoria(c)
  {
    match orden
    case None => None
    case Some(o) => Some(o.Categoria(c))
  }

  class OrdenBuilder {
    /** Swift's `==` on dish names. */
    const igual: Igualdad

    /** The order being built; none until the first `resetear`. */
    var orden: Option<Orden>

    /** The builder's invariant: an order it holds is valid. */
    ghost predicate Valid()
      reads this
    {
      orden.Some? ==> Valida(orden.value, igual)
    }

    /** A fresh builder holds no order. */
    constructor (igual: Igualdad)
      ensures Valid()
      ensures this.igual == igual && orden == None
    {
      this.igual := igual;
      orden := None;
    }

    /** `resetear`: start a new, empty order, discarding any previous one. */
    method Resetear()
      modifies this
      ensures Valid()
      ensures orden == Paso(old(orden), Operacion.Resetear, igual)
      ensures orden.Some? && forall c :: orden.value.Categoria(c) == []
    {
      orden := Some(OrdenVacia());
    }

    /** `setEntradas`: add `plato` to the starters. */
    method SetEntradas(plato: Plato)
      requires Valid()
      modifies this
      ensures Valid()
      ensures orden == Paso(old(orden), Agregar(Entradas, plato), igual)
    {
      Set(plato, CategoriaDe(orden, Entradas), Entradas);
      Mantiene(old(orden), plato, Entradas, igual);
    }

    /** `setPlatoPrincipal`: add `plato` to the main courses. */
    method SetPlatoPrincipal(plato: Plato)
      requires Valid()
      modifies this
      ensures Valid()
      ensures orden == Paso(old(orden), Agregar(PlatoPrincipal, plato), igual)
    {
      Set(plato, CategoriaDe(orden, PlatoPrincipal), PlatoPrincipal);
      Mantiene(old(orden), plato, PlatoPrincipal, igual);
    }

    /** `setGuarnisiones`: add `plato` to the side dishes. */
    method SetGuarnisiones(plato: Plato)
      requires Valid()
      modifies this
      ensures Valid()
      ensures orden == Paso(old(orden), Agregar(Guarnisiones, plato), igual)
    {
      Set(plato, CategoriaDe(orden, Guarnisiones), Guarnisiones);
      Mantiene(old(orden), plato, Guarnisiones, igual);
    }

    /** `setBebidas`: add `plato` to the drinks. */
    method SetBebidas(plato: Plato)
      requires Valid()
      modifies this
      ensures Valid()
      ensures orden == Paso(old(orden), Agregar(Bebidas, plato), igual)
    {
      Set(plato, CategoriaDe(orden, Bebidas), Bebidas);
      Mantiene(old(orden), plato, Bebidas, igual);
    }

    /** `getResultado`: the order built so far, if any; the builder is not changed. */
    method GetResultado() returns (r: Option<Orden>)
      requires Valid()
      ensures r == orden
      ensures r.Some? ==> Valida(r.value, igual)
    {
      r := orden;
    }

    /** The private `set(plato:con:conCategory:)`. Nothing happens when
        `categoriaOrden` is absent, nor when a dish of a matching name is
        already in it (the count is raised on a local copy only); otherwise
        `plato` is appended with count 1 to category `categoria` of the
        order, if there is one. */
    method Set(plato: Plato, categoriaOrden: Option<seq<ArticuloOrdenado>>, categoria: CategoriaPlato)
      modifies this
      ensures categoriaOrden.None? ==> orden == old(orden)
      ensures categoriaOrden.Some? && Nombrado(categoriaOrden.value, plato.nombre, igual) ==> orden == old(orden)
      ensures categoriaOrden.Some? && !Nombrado(categoriaOrden.value, plato.nombre, igual) ==>
                orden == match old(orden)
                         case None => None
                         case Some(o) => Some(o.Anexar(categoria, ArticuloOrdenado(plato, 1)))
      ensures old(Valid()) && categoriaOrden == CategoriaDe(old(orden), categoria) ==> Valid()
    {
      if categoriaOrden.None? {
        return;
      }
      var articulo := PrimeroConNombre(categoriaOrden.value, plato.nombre, igual);
      if articulo.Some? {
        // `articulo.cuantos += 1`: the increment lands on a local copy of the
        // item and is never stored back into the order.
        var copia := articulo.value.(cuantos := articulo.value.cuantos + 1);
        return;
      }
      var nuevo := ArticuloOrdenado(plato, 1);
      if orden.Some? {
        if categoriaOrden == CategoriaDe(orden, categoria) && Valid() {
          AgregarPlatoPreservaValida(orden.value, plato, categoria, igual);
        }
        orden := Some(orden.value.Anexar(categoria, nuevo));
      }
    }
  }

  /** One `set*` step keeps a valid state valid. */
  lemma Mantiene(estado: Option<Orden>, plato: Plato, c: CategoriaPlato, igual: Igualdad)
    requires estado.Some? ==> Valida(estado.value, igual)
    ensures var e := Paso(estado, Agregar(c, plato), igual); e.Some? ==> Valida(e.value, igual)
  {
  }

  /** No calls but `set*` ones: no `resetear` among `ops`. */
  ghost predicate SinResetear(ops: seq<Operacion>)
  {
    forall k :: 0 <= k < |ops| ==> ops[k].Agregar?
  }

  /** Before any `resetear`, `set*` calls create no order. */
  lemma {:induction false} SinResetearNoHayOrden(ops: seq<Operacion>, igual: Igualdad)
    requires SinResetear(ops)
    ensures Ejecutar(None, ops, igual) == None
    decreases |ops|
  {
    if ops != [] {
      SinResetearNoHayOrden(ops[1..], igual);
    }
  }

  /** Once an order exists, no sequence of calls removes it. */
  lemma {:induction false} HayOrdenSiempre(o: Orden, ops: seq<Operacion>, igual: Igualdad)
    ensures Ejecutar(Some(o), ops, igual).Some?
    decreases |ops|
  {
    if ops != [] {
      HayOrdenSiempre(Paso(Some(o), ops[0], igual).value, ops[1..], igual);
    }
  }

  /** The last `resetear` discards everything before it: the state after
      `pre + [Resetear] + post` does not depend on `pre` nor on the state
      the builder started in. */
  lemma {:induction false} ResetearDescarta(estado: Option<Orden>, pre: seq<Operacion>, post: seq<Operacion>, igual: Igualdad)
    ensures Ejecutar(estado, pre + [Resetear] + post, igual) == Ejecutar(Some(OrdenVacia()), post, igual)
    decreases |pre|
  {
    if pre == [] {
      assert pre + [Resetear] + post == [Resetear] + post;
      assert ([Resetear] + post)[1..] == post;
    } else {
      assert (pre + [Resetear] + post)[1..] == pre[1..] + [Resetear] + post;
      ResetearDescarta(Paso(estado, pre[0], igual), pre[1..], post, igual);
    }
  }

  /** Every sequence of calls keeps the builder's invariant: in each category
      the names stay pairwise distinct and every count stays 1. */
  lemma {:induction false} EjecutarPreservaValida(estado: Option<Orden>, ops: seq<Operacion>, igual: Igualdad)
    requires estado.Some? ==> Valida(estado.value, igual)
    ensures var e := Ejecutar(estado, ops, igual); e.Some? ==> Valida(e.value, igual)
    decreases |ops|
  {
    if ops != [] {
      match ops[0] {
        case Resetear =>
          assert Valida(OrdenVacia(), igual);
        case Agregar(c, plato) =>
          Mantiene(estado, plato, c, igual);
      }
      EjecutarPreservaValida(Paso(estado, ops[0], igual), ops[1..], igual);
    }
  }

  /** `a` is the item that some `set*` call of `ops` for category `c` appends:
      its dish with count 1. */
  ghost predicate Pedido(ops: seq<Operacion>, c: CategoriaPlato, a: ArticuloOrdenado)
  {
    a.cuantos == 1 && exists k :: 0 <= k < |ops| && ops[k] == Agregar(c, a.plato)
  }

  /** Without a `resetear` in between, a category only grows at its end:
      the items it held stay in place, and every item after them is a dish
      that some `set*` call routed to that category, with count 1. Calls for
      the other categories add nothing to it. */
  lemma {:induction false} CategoriaTrasEjecutar(o: Orden, ops: seq<Operacion>, c: CategoriaPlato, igual: Igualdad)
    requires SinResetear(ops)
    ensures Ejecutar(Some(o), ops, igual).Some?
    ensures var fin := Ejecutar(Some(o), ops, igual).value.Categoria(c);
            |o.Categoria(c)| <= |fin| && fin[..|o.Categoria(c)|] == o.Categoria(c) &&
            forall i :: |o.Categoria(c)| <= i < |fin| ==> Pedido(ops, c, fin[i])
    decreases |ops|
  {
    HayOrdenSiempre(o, ops, igual);
    if ops != [] {
      var op, resto := ops[0], ops[1..];
      var siguiente := AgregarPlato(o, op.plato, op.categoria, igual);
      assert Ejecutar(Some(o), ops, igual) == Ejecutar(Some(siguiente), resto, igual);
      CategoriaTrasEjecutar(siguiente, resto, c, igual);
      var antes, medio := o.Categoria(c), siguiente.Categoria(c);
      var fin := Ejecutar(Some(siguiente), resto, igual).value.Categoria(c);
      assert medio == antes || (op.categoria == c && medio == antes + [ArticuloOrdenado(op.plato, 1)]);
      assert fin[..|antes|] == antes by {
        assert fin[..|antes|] == fin[..|medio|][..|antes|];
      }
      forall i | |antes| <= i < |fin|
        ensures Pedido(ops, c, fin[i])
      {
        if i < |medio| {
          assert fin[i] == ArticuloOrdenado(op.plato, 1) by {
            assert fin[i] == fin[..|medio|][i];
          }
          assert ops[0] == Agregar(c, fin[i].plato);
        } else {
          assert Pedido(resto, c, fin[i]);
          var k :| 0 <= k < |resto| && resto[k] == Agregar(c, fin[i].plato);
          assert ops[k + 1] == Agregar(c, fin[i].plato);
        }
      }
    }
  }

  /** Without a `resetear` in between, every dish that some `set*` call
      routed to a category is named there afterwards, either by its own item
      or by the earlier item whose name it matched. */
  lemma {:induction false} PedidosNombrados(o: Orden, ops: seq<Operacion>, c: CategoriaPlato, igual: Igualdad)
    requires SinResetear(ops)
    requires Reflexiva(igual)
    ensures Ejecutar(Some(o), ops, igual).Some?
    ensures forall k :: 0 <= k < |ops| && ops[k].categoria == c ==>
              Nombrado(Ejecutar(Some(o), ops, igual).value.Categoria(c), ops[k].plato.nombre, igual)
    decreases |ops|
  {
    HayOrdenSiempre(o, ops, igual);
    if ops != [] {
      var siguiente := AgregarPlato(o, ops[0].plato, ops[0].categoria, igual);
      assert Ejecutar(Some(o), ops, igual) == Ejecutar(Some(siguiente), ops[1..], igual);
      PedidosNombrados(siguiente, ops[1..], c, igual);
      CategoriaTrasEjecutar(siguiente, ops[1..], c, igual);
      var fin := Ejecutar(Some(o), ops, igual).value.Categoria(c);
      var medio := siguiente.Categoria(c);
      forall k | 0 <= k < |ops| && ops[k].categoria == c
        ensures Nombrado(fin, ops[k].plato.nombre, igual)
      {
        if k == 0 {
          AgregarPlatoNombra(o, ops[0].plato, c, igual);
          var a :| a in medio && igual(a.plato.nombre, ops[0].plato.nombre);
          var i :| 0 <= i < |medio| && medio[i] == a;
          assert fin[..|medio|][i] == a;
          assert a in fin;
        } else {
          assert ops[1..][k - 1] == ops[k];
        }
      }
    }
  }

  const Filete := Plato("Filete", 0x4144_CCCD)                // 12.30
  const PatatasFritas := Plato("Patatas fritas", 0x4086_6666)  // 4.20
  const Cerveza := Plato("Cerveza", 0x4060_0000)              // 3.50

  /** The demonstration at the end of the playground: reset, then one main
      course, one side dish and one drink. No starters were ordered, and each
      of the other categories holds its one dish with count 1. */
  method Demostracion(igual: Igualdad) returns (miOrden: Option<Orden>)
    ensures miOrden.Some?
    ensures miOrden.value.entradas == []
    ensures miOrden.value.platoPrincipal == [ArticuloOrdenado(Filete, 1)]
    ensures miOrden.value.guarnisiones == [ArticuloOrdenado(PatatasFritas, 1)]
    ensures miOrden.value.bebidas == [ArticuloOrdenado(Cerveza, 1)]
  {
    var builder := new OrdenBuilder(igual);
    builder.Resetear();
    builder.SetPlatoPrincipal(Filete);
    builder.SetGuarnisiones(PatatasFritas);
    builder.SetBebidas(Cerveza);
    miOrden := builder.GetResultado();
  }

  /** Adding dishes before `resetear` builds nothing. */
  method SinResetearNoConstruye(igual: Igualdad) returns (miOrden: Option<Orden>)
    ensures miOrden == None
  {
    var builder := new OrdenBuilder(igual);
    builder.SetPlatoPrincipal(Filete);
    builder.SetBebidas(Cerveza);
    miOrden := builder.GetResultado();
  }

  /** A second drink of the same name, even at another price, neither adds
      an item nor raises the count of the first. */
  method RepetirNoCuenta(igual: Igualdad) returns (miOrden: Option<Orden>)
    requires Reflexiva(igual)
    ensures miOrden.Some?
    ensures miOrden.value.bebidas == [ArticuloOrdenado(Cerveza, 1)]
  {
    var builder := new OrdenBuilder(igual);
    builder.Resetear();
    builder.SetBebidas(Cerveza);
    builder.SetBebidas(Cerveza);
    builder.SetBebidas(Plato("Cerveza", 0x4080_0000));
    miOrden := builder.GetResultado();
  }

  const CafePrecompuesto := Plato("Caf\U{E9}", 0x3FC0_0000)      // 1.50
  const CafeDescompuesto := Plato("Cafe\U{301}", 0x3FC0_0000)    // 1.50

  /** A drink whose name is spelt with a precomposed accent, then one spelt
      with a combining accent: Swift's `==` finds the two names equal, so the
      second call adds nothing and the first spelling is the one kept. */
  method RepetirEquivalente(igual: Igualdad) returns (miOrden: Option<Orden>)
    requires igual(CafePrecompuesto.nombre, CafeDescompuesto.nombre)
    ensures miOrden.Some?
    ensures miOrden.value.bebidas == [ArticuloOrdenado(CafePrecompuesto, 1)]
  {
    var builder := new OrdenBuilder(igual);
    builder.Resetear();
    builder.SetBebidas(CafePrecompuesto);
    builder.SetBebidas(CafeDescompuesto);
    miOrden := builder.GetResultado();
  }
}
