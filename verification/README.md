# michie, modelled in Dafny

Michie is a Ruby mixin for per-instance memoization. A class that extends
`Michie` declares `memoize :a, :b` or `memoize { def a; ...; end }`. The
declaration prepends a module of wrappers. Each wrapper caches its method's
result in an instance variable whose name comes from the method name and a
prefix (default `__michie`). With `eager: true`, an included `Initializer`
invokes all eager wrappers during construction, as soon as the inherited
constructor reached through `super` has returned.

The model is functional:

- `Helpers` — `ivar_name` as a function on `seq<char>`, with its inverse
  `NameOfIvar` on the names it can be inverted on.
- `Instances` — an object is its instance-variable map plus a per-method
  count of original-body invocations. Original bodies are an abstract
  function from (method, invocation index) to a returned value or a raised
  exception. Bodies write no instance variable and call no other method.
- `Memoizer` — a class is its own method table (name ↦ visibility) plus the
  memoizer layers in its ancestors, outermost first. `CallFrom` is the
  delegation chain: a wrapper's `super` is the next layer, and past the last
  layer it is the original body.
- `Michie` — `memoize`: argument validation, target selection, and a new
  layer with the visibility `prepended` gives it. `Memoize` re-applies that
  visibility for eager layers too; `MemoizeAsWritten` is the declaration
  exactly as written, where `EagerVisibilityAsWritten` leaves eager wrappers
  public (see Findings).
- `EagerMemoizer` — `Initializer#initialize`, as a method with loops over
  the layers and their methods.

Points where `lib/michie.rb` behaves less strictly than one might expect,
all modelled as the code does:

- `memoize :name` does not check that `name` exists; a missing method fails
  only when its wrapper calls `super`.
- Slot names are not injective: `x?` and `x_query` share a slot, and so do
  `x!` and `x_bang`. Prefixes are not delimited either: `("a", "b_c")` and
  `("a_b", "c")` share `@a_b_c`.
- `lib/michie.rb` names the slot of `my_method` `@__michie_my_method`;
  `spec/michie_spec.rb` expects `@__michie_m_my_method`. The model follows
  `lib/michie.rb`.

## Model

| member | source | states |
|---|---|---|
| Helpers.IvarName | lib/michie.rb:75-83 | the slot is `@prefix_name`; a trailing `?` becomes `_query`, a trailing `!` becomes `_bang`, and only one substitution happens |
| Helpers.NameOfIvarRoundTrip | lib/michie.rb:75-83 | for a name not ending in `_query` or `_bang`, the method name can be read back from its slot |
| Helpers.IvarNameInjective | lib/michie.rb:76-82 | for one prefix, two names not ending in `_query`/`_bang` that share a slot are the same name |
| Helpers.QueryCollision | lib/michie.rb:78-80 | `x?` and the distinct plain method `x_query` share a slot |
| Helpers.BangCollision | lib/michie.rb:78-80 | `x!` and the distinct plain method `x_bang` share a slot |
| Helpers.MarkedVariantsDistinct | lib/michie.rb:76-82 | `x`, `x?` and `x!` always get three different slots |
| Helpers.PrefixCollision | lib/michie.rb:76 | different (prefix, name) pairs can produce the same slot, because the prefix separator also occurs inside names |
| Helpers.SameSlotIff | lib/michie.rb:76-82 | for one prefix, two names share a slot if and only if they are equal or one is the `?`/`!` alias of the other's `_query`/`_bang` spelling |
| Memoizer.Prepended | lib/michie.rb:47-55 | a wrapper is protected exactly when the class's own protected methods hold it, private exactly when its own private methods do, and otherwise public |
| Memoizer.CallFrom | lib/michie.rb:30-41 | what the wrappers themselves do to the object during one call: they only add instance variables, only slots of the called method, and never change an existing one; the body of the called method runs at most once; when it did not run, the value came from an already-defined slot; an exception is not cached; a returned value ends up in the outermost slot |
| Memoizer.HitServesCache | lib/michie.rb:34 | when the slot is defined (even holding `nil` or `false`), the call returns it unchanged, runs no body and changes no state |
| Memoizer.ReturnedCallLeavesHit | lib/michie.rb:36-38 | after a call returns, the method's outermost slot is defined |
| Memoizer.CallTwice | lib/michie.rb:33-39 | a second call after a returned first call returns the same value and leaves the object exactly as the first call left it |
| Memoizer.MissStoresEverywhere | lib/michie.rb:36-38 | with no slot of the method defined, the body runs exactly once and its outcome is the call's; if it returned, every wrapping layer stores that value, and the wrappers write nothing else |
| Memoizer.FailureIsRetried | lib/michie.rb:34-38 | a raising call leaves no slot behind, and the next call runs the body again as its next invocation |
| Memoizer.FirstCallAddsOneSlot | lib/michie.rb:31-38 | with one layer, the wrapper of a first call adds exactly the slot `ivar_name(m, prefix)`, holding exactly the returned value |
| Memoizer.TwoMethodsTwoSlots | lib/michie.rb:31-38 | two distinct methods, neither the `?`/`!` alias of the other's `_query`/`_bang` spelling (an alias pair shares one slot, Helpers.SameSlotIff), each called once on a fresh object, each run their body once, and the wrappers leave exactly two distinct slots |
| Michie.OwnMethods | lib/michie.rb:11 | public, protected and private own methods together list every method the class itself defines |
| Michie.Memoize | lib/michie.rb:7-21 | names and a block together raise ArgumentError with the exact message; with neither, construction fails on `nil.each`; otherwise one layer is prepended, holding either the methods the block newly defined or the given names verbatim; its visibility is re-applied for eager layers too (see Findings) |
| Michie.RedefinedMethodNotSelected | lib/michie.rb:11-13 | a method defined before the block is not memoized even if the block redefines it |
| Michie.MemoizeKeepsVisibility | lib/michie.rb:47-55 | after a declaration, each wrapped method is seen with the class's own visibility, or public if the class does not define it itself; every other method is seen as before |
| Michie.EagerPrivateBecomesPublicAsWritten | lib/michie.rb:58-61 | as written, a private method memoized eagerly is seen as public |
| Michie.EagerVisibilityLostAsWritten | lib/michie.rb:58-61 | for `Michie.MemoizeAsWritten` (the declaration as written, whose eager layers get `Michie.EagerVisibilityAsWritten`: all wrappers public): every method an eager declaration wraps is seen as public, which differs from the corrected declaration exactly when the class holds it as protected or private; methods it does not wrap are seen the same way |
| Michie.LazyAsWrittenIsMemoize | lib/michie.rb:47-55 | for a lazy declaration the code as written and the corrected declaration agree |
| Michie.EagerKeepsPrivate | lib/michie.rb:47-55 | with the visibility also re-applied for eager layers, that method stays private |
| EagerMemoizer.EagerMethods | lib/michie.rb:67-68 | the hook sends exactly the methods of the eager layers |
| EagerMemoizer.Construct | lib/michie.rb:63-70 | if the inherited constructor raises, the hook does not run; otherwise every eager method is afterwards a cache hit, no body outside the eager methods ran, the instance variables the constructor set are kept, and only eager slots were added; from a fresh object each eager body ran exactly once; a failure of the hook is a raise from an eager body |
| EagerMemoizer.LazySlotsStayUnset | lib/michie.rb:67-68 | when no two distinct memoized methods share a slot, the hook itself sets no slot of a lazily memoized method |

## Left out

- Ruby mechanics are not modelled: `module_eval` string generation, `prepend`/`include`, ancestor linearisation and `send`. They become an explicit ordered list of layers over a method table.
- The order of `instance_methods(false)` is not modelled. The hook picks a layer's methods in an arbitrary order, so when several eager bodies would raise, the model does not fix which exception is reported.
- `Initializer` is included, not prepended, so its hook runs where the class's own `initialize` calls `super`, before the rest of that constructor. The model starts from the object as it stands at that point and does not model the rest of the constructor. A constructor that does not call `super` skips the hook entirely.
- The layers are all memoizer modules in the object's ancestors, the superclasses' included. Wrappers are assumed to delegate straight from one layer to the next. A class between two layers that defines the memoized method itself would interrupt that chain, and this is not modelled.
- Original bodies are modelled as writing no instance variable and calling no other method. In Ruby, `super` at lib/michie.rb:36 runs arbitrary code that can set instance variables or call other, possibly memoized, methods. The frame clauses below are therefore claims about what the wrappers write, not about what a body may write.
- Memoizer.CallFrom: "only slots of the called method are added", "existing ones never change" and "no other body runs" describe the wrappers only; a body that writes instance variables or calls other methods is not modelled.
- Memoizer.MissStoresEverywhere: "nothing else changes" holds for bodies that write no instance variable and call no method; other bodies are not modelled.
- Memoizer.FailureIsRetried: "no slot is left behind" ignores instance variables, or other methods' slots, that a raising body set before it raised.
- Memoizer.FirstCallAddsOneSlot: "exactly that slot" counts only what the wrapper adds; instance variables the body writes are not modelled.
- Memoizer.TwoMethodsTwoSlots: "exactly two slots" and "each body once" assume the bodies neither write instance variables nor call each other.
- EagerMemoizer.Construct: "no other body ran", "kept" and "only eager slots added" assume the eager bodies neither write instance variables nor call other methods.
- EagerMemoizer.LazySlotsStayUnset: an eager body that calls a lazily memoized method sets that method's slot in Ruby; the model has no such calls.
- EagerMemoizer.LazySlotsStayUnset: the claim holds only when no two distinct memoized methods share a slot. With colliding slots, such as eager `x?` and lazy `x_query` under one prefix (Helpers.QueryCollision), sending `x?` fills `@__michie_x_query`. A later `x_query` call then returns `x?`'s value without running its own body.
- Frozen objects are not modelled. On a frozen object the assignment at lib/michie.rb:37 raises FrozenError after the body has run, so nothing is ever cached and every call runs the body and raises.
- Memoizer.CallFrom: on a frozen object, "a returned value ends up in the outermost slot" does not hold, because the store raises instead; the model's objects are never frozen.
- Memoizer.CallTwice: on a frozen object the first call raises after running the body, so there is no returned first call to repeat; the model's objects are never frozen.
- Michie.Memoize: a declaration also fails, before anything is prepended, when `module_eval` at lib/michie.rb:32-40 cannot compile the wrapper. This happens for a name like `-@` or `~`, whose slot is no instance-variable name. It also fails when the block itself raises. Neither failure is modelled: names are treated as spellable, and a block is represented only by the table it leaves.
- Inherited methods and methods that do not exist are not told apart: both are part of the abstract original body. A listed method that does not exist fails only when it is called, as in the code.
- Only nullary methods are modelled, because the generated wrapper takes no arguments.
- Thread safety is not modelled. The check-compute-store sequence is unsynchronised.
- Names containing a newline are not modelled (the `\Z` anchor would also match before a trailing newline).
- `Memoizer#inspect` is not modelled: it only formats a debug string.
- `michie/version` is not part of this model.
- Michie.Memoize: a failed declaration returns no class, so "nothing was installed" holds only because the caller keeps its unchanged class.
- EagerMemoizer.Construct: exactly-once is proved only for a fresh object whose layers have pairwise distinct slots. Colliding slot names (Helpers.QueryCollision, Helpers.PrefixCollision) let one method's cached result stand in for another's.
- EagerMemoizer.Construct: the corrected hook sends every wrapper of an eager layer, private ones included. As written all eager wrappers are public, so `instance_methods(false)` already lists them all; re-applying visibility alone would silently drop the private ones from the hook.

## Findings

| source | as written | input that shows it | evidently intended | confidence | as-written member | corrected member |
|---|---|---|---|---|---|---|
| lib/michie.rb:58-61 | `EagerMemoizer#prepended` overrides `Memoizer#prepended` without calling `super`, so eager wrappers stay public | `memoize(eager: true) { def secret; end; private :secret }` makes `secret` publicly callable | eager wrappers keep the class's visibility, as lazy ones do | not executed; follows from Ruby's method override rules | Michie.EagerVisibilityLostAsWritten | Michie.MemoizeKeepsVisibility |
