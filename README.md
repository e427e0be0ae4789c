# Builder pattern: restaurant orders

A Dafny model of the Builder demonstration in `Patterns_Swift.playground/Contents.swift`.
An `OrdenBuilder` holds an optional `Orden`, which is made of four lists of
ordered items: `entradas`, `platoPrincipal`, `guarnisiones` and `bebidas`.
Each item is an `ArticuloOrdenado`, a dish (`Plato`) plus a count.

- `resetear` starts a new, empty order.
- Each `set*` method adds a dish to its own category.
- `getResultado` hands back the order.

All of the logic is in the private `set`:
- With no order yet, it does nothing.
- It looks the dish up by name only, with Swift's `==` on `String`.
- When the name matches one already in the category, it raises the count on
  a local copy of the (value-type) item and never stores it. So a repeated
  dish leaves the order exactly as it was.
- Otherwise it appends the dish with count 1 to the category chosen by its `switch`.

The model keeps every branch of `set`, including the discarded increment, so
every count in a built order is 1.

Swift's `==` on `String` is Unicode canonical equivalence: `"Caf\u{E9}"` and
`"Cafe\u{301}"` are equal. The model does not define that relation. Name
comparison is a parameter `igual: (string, string) -> bool`: the builder is
constructed with it and every lookup uses it. Most properties are proved
for every such relation. Those that need a name to match itself are proved
for every reflexive relation. The scenario `RepetirEquivalente` is proved for
every relation that matches its two spellings of one name. So the properties
hold in particular for Swift's comparison.

Layout:
- `modelos.dfy` (module `Modelos`) holds the value types and the effect of one addition.
  - `CategoriaPlato`, `Plato`, `ArticuloOrdenado` and `Orden`.
  - Swift's optional, as `Option`.
  - The `filter { … }.first` lookup, as `PrimeroConNombre`.
  - `AgregarPlato`, the effect of one `set` on an existing order, with its lemmas.
  - `Valida`, the order invariant: no name in a category matches an earlier
    name in it, and every count is 1.
- `builder.dfy` (module `Builder`) holds the builder and its semantics.
  - `Paso` gives the builder state after one call, and `Ejecutar` after a sequence of calls.
  - The class `OrdenBuilder` has the field `orden`.
    - `Resetear` and the four `Set*` methods are each proved to move `orden`
      as `Paso` says and to keep the invariant.
    - `Set` models the private `set` for any arguments. It keeps the
      invariant when it is passed the order's own list of the chosen
      category, which is what the four `Set*` methods pass.
  - Lemmas cover arbitrary call sequences.
  - The playground's closing demonstration and three more client scenarios
    are methods whose postconditions state the resulting order.

## Model

| member | source | states |
|---|---|---|
| `Modelos.Orden.Anexar` | Patterns_Swift.playground/Contents.swift:75-84 | the `switch` appends the item to the list of the chosen category and leaves the other three lists unchanged |
| `Modelos.OrdenVacia` | Patterns_Swift.playground/Contents.swift:20-24 | a default `Orden()` has all four category lists empty |
| `Modelos.PrimeroConNombre` | Patterns_Swift.playground/Contents.swift:66 | the lookup finds nothing exactly when no item's name matches the dish's name; otherwise it returns the first item whose name matches |
| `Modelos.AgregarPlato` | Patterns_Swift.playground/Contents.swift:66-84 | a dish whose name matches one in category c leaves the whole order unchanged, whatever its price; any other dish is appended at the end of c's list with count 1; the other lists never change |
| `Modelos.AgregarPlatoNombra` | Patterns_Swift.playground/Contents.swift:66-84 | after an addition, category c holds an item whose name the dish's name matches |
| `Modelos.AgregarPlatoIdempotente` | Patterns_Swift.playground/Contents.swift:66-84 | adding the same dish twice to a category gives the same order as adding it once |
| `Modelos.AgregarPlatoConmuta` | Patterns_Swift.playground/Contents.swift:75-84 | additions to two different categories give the same order in either sequence |
| `Modelos.AgregarPlatoPreservaValida` | Patterns_Swift.playground/Contents.swift:66-84 | if names are distinct and counts are 1 in every category before an addition, the same holds after it |
| `Builder.Paso` | Patterns_Swift.playground/Contents.swift:37-84 | after one call an order exists exactly when the call is `resetear` or an order existed before; `resetear` leaves four empty lists; an addition changes no category but its own |
| `Builder.CategoriaDe` | Patterns_Swift.playground/Contents.swift:42-54 | `orden?.<list>` is absent exactly when there is no order, and otherwise is that category's list |
| `Builder.OrdenBuilder.constructor` | Patterns_Swift.playground/Contents.swift:34-35 | a new builder holds no order |
| `Builder.OrdenBuilder.Resetear` | Patterns_Swift.playground/Contents.swift:37-39 | after `resetear` an order exists and all four lists are empty; any previous order is discarded |
| `Builder.OrdenBuilder.SetEntradas` | Patterns_Swift.playground/Contents.swift:41-43 | the new state is one `set` step routed to `entradas`, and the invariant is kept |
| `Builder.OrdenBuilder.SetPlatoPrincipal` | Patterns_Swift.playground/Contents.swift:45-47 | the new state is one `set` step routed to `platoPrincipal`, and the invariant is kept |
| `Builder.OrdenBuilder.SetGuarnisiones` | Patterns_Swift.playground/Contents.swift:49-51 | the new state is one `set` step routed to `guarnisiones`, and the invariant is kept |
| `Builder.OrdenBuilder.SetBebidas` | Patterns_Swift.playground/Contents.swift:53-55 | the new state is one `set` step routed to `bebidas`, and the invariant is kept |
| `Builder.OrdenBuilder.GetResultado` | Patterns_Swift.playground/Contents.swift:57-59 | returns the current order, or none, without changing the builder; a returned order satisfies the invariant |
| `Builder.OrdenBuilder.Set` | Patterns_Swift.playground/Contents.swift:61-87 | no change when the passed list is absent or already holds a matching name; otherwise the dish is appended with count 1 to the chosen category of the order, if there is one; passed the order's own list, it keeps the invariant |
| `Builder.Mantiene` | Patterns_Swift.playground/Contents.swift:61-84 | one `set*` step keeps a valid builder state valid |
| `Builder.SinResetearNoHayOrden` | Patterns_Swift.playground/Contents.swift:61-64 | starting with no order, any sequence of `set*` calls without `resetear` still leaves no order |
| `Builder.HayOrdenSiempre` | Patterns_Swift.playground/Contents.swift:37-84 | once an order exists, no sequence of calls removes it |
| `Builder.ResetearDescarta` | Patterns_Swift.playground/Contents.swift:37-39 | the calls before a `resetear`, and the state the builder started in, have no effect on the state after it |
| `Builder.EjecutarPreservaValida` | Patterns_Swift.playground/Contents.swift:37-87 | every sequence of calls keeps names distinct within each category and every count at 1 |
| `Builder.CategoriaTrasEjecutar` | Patterns_Swift.playground/Contents.swift:41-84 | with no `resetear` in between, a category keeps its earlier items in place, and every later item is a count-1 item for a dish some call routed to that category |
| `Builder.PedidosNombrados` | Patterns_Swift.playground/Contents.swift:41-84 | with no `resetear` in between, every dish routed to a category is afterwards matched by some item in that category |
| `Builder.Demostracion` | Patterns_Swift.playground/Contents.swift:97-103 | reset, one main course, one side and one drink: `entradas` is empty and each of the other lists holds its one dish with count 1 |
| `Builder.SinResetearNoConstruye` | Patterns_Swift.playground/Contents.swift:61-64 | `set*` calls on a builder that was never reset build nothing, so `getResultado` returns none |
| `Builder.RepetirNoCuenta` | Patterns_Swift.playground/Contents.swift:66-71 | the same drink added three times, once at another price, yields one item with count 1 and the first price |
| `Builder.RepetirEquivalente` | Patterns_Swift.playground/Contents.swift:66-71 | two spellings of a name that `==` finds equal yield one item, the first spelling, with count 1 |

## Left out

- Modelos.PrimeroConNombre: names are compared with the parameter `igual`, not with Unicode canonical equivalence. Normalization itself is not defined here, so `igual` stands for Swift's `==` on `String`. Properties that need every name to match itself assume `Reflexiva(igual)`. `RepetirEquivalente` assumes its two spellings match.
- The computed `precio` of an `Orden` (lines 26-29) is left out, because it is a floating-point sum.
- The dish prices are not interpreted. `Plato.precio` holds the IEEE-754 binary32 bit pattern of the Swift `Float`, and nothing in the model computes with it.
- The playground's closing `miOrden?.precio` expression (line 104) is not modelled. The calls before it are the `Demostracion` method.
- `import Foundation` is not modelled.
- Swift's optional chaining and implicitly-unwrapped optional are modelled by the `Option` datatype and explicit matches.
- The increment `articulo.cuantos += 1` (line 69) acts on a local copy and is not stored. The model performs it on a local value and discards it, as the source does. Swift's `Int` overflow trap on that increment is not modelled.
- Builder.OrdenBuilder.Set: Dafny has no `private`, so `Set` can be called from outside the class. Called with a list that is not the order's own list of that category, it may break the invariant `Valid()`; the source's callers never do this.
- The order is a value type in Swift, so `orden?.entradas.append(…)` is modelled as assigning a new `Orden` to the field `orden`. There is no aliasing to capture.
- The rest of the repository, outside the Builder demonstration, is not part of this model.
