# Optics: getters, setters, lenses, prisms and isos

This project models a small, purely functional Swift optics library, in two
revisions. An optic describes how to reach a part (the *focus*) of a
structure.

- A **getter** reads the focus.
- A **setter** transforms it.
- A **lens** reads it and writes it back; the focus is always present.
- A **prism** tries to match it and can build a structure from one; the focus
  can be absent.
- An **iso** converts losslessly in both directions.

Each kind comes in a four-parameter form (`LSetter<S, T, A, B>` and so on).
`S` is the structure looked into and `T` the structure produced. `A` is the
focus found and `B` the focus written. Each kind also has a simple form
(`Setter<S, A>`) in which the structure and the focus keep their types. In
the model the simple forms are type synonyms of the four-parameter forms, so
an operation both forms share is one function. This covers `asLSetter` and
`asSetter`, `asLLens` and `asLens`, `asLPrism` and `asPrism`, and `asLIso`
and `asIso`.

The model has three parts:

- the primitive operations and the derived `set`, `modify`, `tryGet`, `re`
  and `reverse`;
- the weakening conversions `as...` and the structural combinators `split`,
  `choice`, `first`, `second`, `left` and `right`;
- the composition table `compose` / `>>>`. Every `>>>` operator returns
  `lhs.compose(rhs)`, so one function stands for each pair of operand kinds.
  Composing two kinds gives the weaker of the two; a mixed pair first weakens
  one operand.

Each optic is a datatype whose fields are the stored closures. Two fields
are renamed because the source names are Dafny keywords: the setter's stored
`modify` is the field `update`, and the lens's stored `set` is the field
`put`. Dafny cannot compare function values, so every law is stated
pointwise.

- Setter laws (`SetterLaws`):
  - *identity*: `update(x, id) == x`;
  - *fusion*: two updates equal one update with the composed function;
  - *congruence*: an update depends only on the values of the function it is
    given.
- Lens laws (`LensLaws`): get-set, set-get, and set-set (the second write
  wins).
- Prism laws (`PrismLaws`): a miss keeps the structure, a hit rebuilds it,
  and what `reverseGet` builds is matched again.
- Iso laws (`IsoLaws`): the two conversions undo each other.

`Either`, `id` and function composition `•` come from an external library
that is not part of this model. They are defined in `base.dfy` with the
meaning the Swift types force at each use. `Either`'s `map` rewrites the
side the types require at each call site:

- the miss (`Left`) in prism composition and in `left`;
- the hit (`Right`) in `right`.

## Model

| member | source | states |
|---|---|---|
| `Base.BimapIdIsMapLeft` | L/Composition.swift:36 | `bimap(f, id)`, as the older prism composition writes it, rewrites only the left side: it equals `map` on `Left` |
| `Setters.LSetter.Choice` | Source/Setter.swift:88-93 | a `Left(s)` becomes `Left` of this setter's update of `s`; a `Right(s1)` becomes `Right` of the other setter's update; the case is kept |
| `Setters.LSetter.AsLSetter` | Source/Setter.swift:100-108 | `asLSetter` / `asSetter` updates every structure with every function exactly as the original |
| `Setters.LSetter.Set` | Source/Setter.swift:66-68 | `set(y, x)` is `modify` with a constant function: for a congruent setter, every function `f` that always returns `y` gives `modify(x, f) == set(y, x)` |
| `Setters.SetTwiceKeepsLast` | Source/Setter.swift:66-68 | for a lawful setter, setting `y1` and then `y2` equals setting `y2` |
| `Setters.ChoiceLawful` | Source/Setter.swift:87-96 | `choice` of two lawful setters is lawful: congruence, identity and fusion, case by case |
| `Setters.AsLSetterLawful` | Source/Setter.swift:99-103 | rebuilding a lawful setter keeps it lawful |
| `Getters.Getter.Split` | Source/Getter.swift:18-29 | the pair `(s, s1)` reads to `(get(s), other.get(s1))`: each half with its own getter |
| `Getters.Getter.Choice` | Source/Getter.swift:31-38 | `Left(s)` reads to `get(s)`, `Right(s1)` to `other.get(s1)` |
| `Getters.Getter.First` | Source/Getter.swift:40-42 | `(s, x)` reads to `(get(s), x)`: the second slot is untouched |
| `Getters.Getter.Second` | Source/Getter.swift:44-46 | `(x, s)` reads to `(x, get(s))`: the first slot is untouched |
| `Getters.Getter.Left` | Source/Getter.swift:48-50 | a `Left(s)` reads to `Left(get(s))`; a `Right(x)` passes through unchanged |
| `Getters.Getter.Right` | Source/Getter.swift:52-54 | a `Right(s)` reads to `Right(get(s))`; a `Left(x)` passes through unchanged |
| `Getters.FirstIsSplitWithIdentity` | Source/Getter.swift:40-42 | `first` is `split` with the identity getter on the second slot |
| `Getters.SecondIsIdentitySplit` | Source/Getter.swift:44-46 | `second` is the identity getter split with this one |
| `Lenses.LLens.Split` | Source/Lens.swift:24-30 | reads both halves with their own lenses; writing a pair of foci writes each half with its own lens only |
| `Lenses.LLens.First` | Source/Lens.swift:39-46 | reading keeps the second slot; writing `(b, x)` into `(s, x')` gives `(set(b, s), x)` |
| `Lenses.LLens.Second` | Source/Lens.swift:55-62 | mirror image of `first`: writing `(x, b)` into `(x', s)` gives `(x, set(b, s))` |
| `Lenses.LLens.AsLSetter` | Source/Lens.swift:66-69 | the setter of a lens transforms by `set(f(get(x)), x)` |
| `Lenses.LLens.AsLLens` | Source/Lens.swift:71-73 | `asLLens` / `asLens` keeps `get`, `set` and `modify` pointwise |
| `Lenses.LLens.AsGetter` | Source/Lens.swift:75-77 | `asGetter` reads what the lens reads |
| `Lenses.LLens.Modify` | Source/Lens.swift:112-114 | `modify(x, f)` with a function `f` that always returns `y` is the stored `set(y, x)` (the simple `Lens` at lines 143-145 is the same function) |
| `Lenses.DerivedSetIsStoredSet` | Source/Lens.swift:116-118 | the `set` the setter protocol derives from `modify` agrees with the lens's own stored `set(y, x)` |
| `Lenses.ModifyIdentity` | Test/LensSpec.swift:67-72 | for a lawful lens, `modify(s, id) == s` |
| `Lenses.ModifyFusion` | Source/Lens.swift:143-145 | for a lawful lens, two modifications equal one with the composed function |
| `Lenses.InversePairLensLawful` | Test/LensSpec.swift:45-65 | the lens the tests build from an inverse pair, whose `set` ignores the old structure, satisfies get-set, set-get and set-set |
| `Lenses.AsLSetterLawful` | Test/SetterSpec.swift:40-61 | the setter built from a lawful lens's `modify` satisfies identity and fusion |
| `Lenses.SplitLawful` | Source/Lens.swift:13-31 | `split` of two lawful lenses is lawful |
| `Lenses.FirstLawful` | Source/Lens.swift:33-47 | `first` of a lawful lens is lawful |
| `Lenses.SecondLawful` | Source/Lens.swift:49-63 | `second` of a lawful lens is lawful |
| `Lenses.AsLLensLawful` | Source/Lens.swift:85-87 | rebuilding a lawful lens keeps it lawful |
| `Prisms.LPrism.Modify` | Source/Prism.swift:13-18 | a miss `Left(t)` returns `t` unchanged; a hit `Right(a)` returns `reverseGet(f(a))` |
| `Prisms.LPrism.Set` | Source/Setter.swift:66-68 | derived `set`: a miss returns the miss payload (not `reverseGet(y)`); a hit returns `reverseGet(y)` |
| `Prisms.LPrism.Re` | Source/Prism.swift:20-22 | `re` reads a focus to `reverseGet` of it |
| `Prisms.LPrism.First` | Source/Prism.swift:38-45 | both outcomes of `tryGet` are paired with the untouched second slot; `reverseGet` keeps it too |
| `Prisms.LPrism.Second` | Source/Prism.swift:54-61 | mirror image of `first` |
| `Prisms.LPrism.Left` | Source/Prism.swift:70-80 | a `Left(s)` is looked into and both outcomes wrapped in `Left`; a `Right(x)` is a hit `Right(Right(x))`; `reverseGet` converts only `Left` |
| `Prisms.LPrism.TryGetRight` | Source/Prism.swift:92 | the `ifRight` match of `right` (and of the mirrored `right`): a miss `t` of this prism becomes `Left(Right(t))`, a hit `a` becomes `Right(Right(a))` |
| `Prisms.LPrism.Right` | Source/Prism.swift:89-98 | as written: a `Left(x)` is the miss `Left(Left(x))`; a `Right(s)` is looked into and both outcomes wrapped in `Right`; `reverseGet` converts only `Right` |
| `Prisms.LPrism.TryGetLeft` | Source/Prism.swift:72 | the `ifLeft` match of `left` (used by `left` with the miss convention): a miss `t` of this prism becomes `Left(Left(t))`, a hit `a` becomes `Right(Left(a))` |
| `Prisms.LPrism.LeftAsMiss` | Source/Prism.swift:70-80 | `left` with the convention of `right`: a `Left(s)` is looked into as in `left`, but the passed-through `Right(x)` is the miss `Left(Right(x))`; `reverseGet` as in `left` |
| `Prisms.LPrism.RightMirrored` | Source/Prism.swift:89-93 | `right` with the convention of `left`: a `Right(s)` is looked into as in `right`, but the passed-through `Left(x)` is the hit `Right(Left(x))`; `reverseGet` as in `right` |
| `Prisms.LPrism.AsLSetter` | Source/Prism.swift:103-105 | the setter of a prism transforms by the prism's `modify`, and keeps the miss payload on a miss |
| `Prisms.LPrism.AsLPrism` | Source/Prism.swift:107-119 | `asLPrism` / `asPrism` keeps `tryGet`, `reverseGet` and `modify` pointwise |
| `Prisms.FromOptional` | Source/Prism.swift:122-143 | `nil` gives the miss `Left(source)` with the source itself; `some(a)` gives the hit `Right(a)` |
| `Prisms.RightIdentity` | Test/PrismSpec.swift:26-38 | for a prism whose hits rebuild their structure, `modify(s, id)` on a hit is `s`; on a miss it is the structure the miss reported |
| `Prisms.ModifyIdentity` | Source/Prism.swift:13-18 | for a lawful prism, `modify(s, id) == s` on a hit and on a miss |
| `Prisms.ReThenModify` | Source/Prism.swift:13-22 | for a lawful prism, modifying what `re` built from `a` with `f` is what `re` builds from `f(a)` |
| `Prisms.FromOptionalLawful` | Source/Prism.swift:123-132 | the optional constructor always keeps the source on a miss, and is lawful when the match and `reverseGet` are a partial inverse pair |
| `Prisms.AsLSetterLawful` | Source/Prism.swift:102-105 | the setter of a lawful prism is lawful |
| `Prisms.FirstLawful` | Source/Prism.swift:32-46 | `first` of a lawful prism is lawful |
| `Prisms.SecondLawful` | Source/Prism.swift:48-62 | `second` of a lawful prism is lawful |
| `Prisms.LeftLawful` | Source/Prism.swift:64-81 | `left` of a lawful prism is lawful |
| `Prisms.LeftRightAsymmetric` | Source/Prism.swift:70-93 | the passed-through case is treated differently by the two sum combinators: `left` reports `Right(x)` as the hit `Right(Right(x))`, `right` reports `Left(x)` as the miss `Left(Left(x))` |
| `Prisms.RightMissesWhatItBuilds` | Source/Prism.swift:83-99 | `right` as written does not match the `Left(x)` its own `reverseGet` builds, so it breaks the prism laws whatever the prism |
| `Prisms.RightKeepsMissAndHit` | Source/Prism.swift:83-99 | for a lawful prism, `right` as written keeps the miss law, the hit law, `modify(e, id) == e`, and the round trip of every `Right` focus: the `Left` round trip is the only law it breaks |
| `Prisms.LeftAsMissKeeps` | Source/Prism.swift:70-80 | for a lawful prism, `left` with the miss convention keeps the miss law, the hit law, `modify(e, id) == e` and the round trip of every `Left` focus, and does not match again the `Right(x)` its `reverseGet` builds |
| `Prisms.RightMirroredLawful` | Source/Prism.swift:91 | `right` with the hit convention of `left`, for a lawful prism, is lawful |
| `Prisms.AsLPrismLawful` | Source/Prism.swift:117-119 | rebuilding a lawful prism keeps it lawful |
| `Isos.LIso.TryGet` | Source/Iso.swift:12-14 | an iso always matches: `tryGet(x) == Right(get(x))` |
| `Isos.LIso.Modify` | Source/Prism.swift:13-18 | the prism-derived `modify` on an iso is `reverseGet(f(get(x)))` |
| `Isos.LIso.Set` | Source/Setter.swift:66-68 | the derived `set(y, x)` is `reverseGet(y)`, whatever `x` is |
| `Isos.LIso.Split` | Source/Iso.swift:24-38 | both conversions act on each half with its own iso |
| `Isos.LIso.First` | Source/Iso.swift:40-50 | both conversions act on the first slot and keep the second |
| `Isos.LIso.Second` | Source/Iso.swift:52-62 | both conversions act on the second slot and keep the first |
| `Isos.LIso.Left` | Source/Iso.swift:64-74 | both conversions act on `Left` and pass `Right` through |
| `Isos.LIso.Right` | Source/Iso.swift:76-86 | both conversions act on `Right` and pass `Left` through |
| `Isos.LIso.AsLIso` | Source/Iso.swift:89-92 | `asLIso` / `asIso` keeps both conversions pointwise |
| `Isos.LIso.AsLLens` | Source/Iso.swift:94-96 | as a lens, reads with `get`, and writing ignores the old structure: `set(y, x) == reverseGet(y)` |
| `Isos.LIso.AsLPrism` | Source/Iso.swift:98-100 | as a prism, always matches with `get(x)` and builds with `reverseGet` |
| `Isos.LIso.AsLSetter` | Source/Iso.swift:102-104 | as a setter, converts, transforms and converts back |
| `Isos.LIso.AsGetter` | Source/Iso.swift:106-108 | as a getter, reads with `get` |
| `Isos.LIso.Reverse` | Source/Iso.swift:164-166 | `reverse` swaps the roles of `get` and `reverseGet` |
| `Isos.InversePairIsoLaws` | Test/IsoSpec.swift:11-26 | for an inverse pair, `get(reverseGet(a)) == a`, `reverseGet(get(s)) == s` and `modify(s, id) == s` |
| `Isos.ReverseReverse` | Source/Iso.swift:202-204 | reversing twice gives back the very same iso |
| `Isos.ReverseLawful` | Test/IsoSpec.swift:41-67 | the reverse of a lawful iso is lawful, and its `modify` converts the other way |
| `Isos.AsLLensLawful` | Source/Iso.swift:111-114 | a lawful iso seen as a lens is a lawful lens |
| `Isos.AsLPrismLawful` | Source/Iso.swift:116-118 | a lawful iso seen as a prism is a lawful prism |
| `Isos.AsLSetterLawful` | Source/Iso.swift:120-122 | a lawful iso seen as a setter is a lawful setter |
| `Isos.SplitLawful` | Source/Iso.swift:23-38 | `split` of two lawful isos is lawful |
| `Isos.FirstLawful` | Source/Iso.swift:39-50 | `first` of a lawful iso is lawful |
| `Isos.SecondLawful` | Source/Iso.swift:51-62 | `second` of a lawful iso is lawful |
| `Isos.LeftLawful` | Source/Iso.swift:63-74 | `left` of a lawful iso is lawful |
| `Isos.RightLawful` | Source/Iso.swift:75-86 | `right` of a lawful iso is lawful |
| `Composition.ComposeGetters` | Source/Composition.swift:8-10 | the composite reads `other.get(self.get(s))` |
| `Composition.ComposeGetterLens` | Source/Composition.swift:12-18 | a getter then a lens reads through the lens's `get` |
| `Composition.ComposeGetterIso` | Source/Composition.swift:20-26 | a getter then an iso reads through the iso's `get` |
| `Composition.ComposeSetters` | Source/Composition.swift:53-61 | the composite transforms the outer focus `a` by the inner setter's update of `a` |
| `Composition.ComposeSetterLens` | Source/Composition.swift:63-65 | for a congruent outer setter, the inner part is transformed by `set(f(get(a)), a)` of the lens |
| `Composition.ComposeSetterPrism` | Source/Composition.swift:67-69 | for a congruent outer setter, the inner part is transformed by the prism's `modify` |
| `Composition.ComposeSetterIso` | Source/Composition.swift:71-73 | for a congruent outer setter, the inner part is transformed by `reverseGet(f(get(a)))` of the iso |
| `Composition.ComposePrisms` | Source/Composition.swift:169-181 | an outer miss is the result's miss; an outer hit with an inner miss `b` is the miss `Left(outer.reverseGet(b))`, the outer `set(b, s)`; an inner hit `c` is the hit `Right(c)`; `reverseGet` builds inner then outer |
| `Composition.ComposePrismIso` | Source/Composition.swift:183-185 | a prism then an iso: the outer outcome with a hit converted by the iso's `get` |
| `Composition.ComposePrismSetter` | Source/Composition.swift:187-189 | a prism then a setter: an outer miss keeps its payload; a hit `a` becomes `reverseGet` of the setter's update of `a` (the simple forms at lines 233-239 are the same function); the miss case is proved by the helper lemma `Composition.PrismSetterCases` |
| `Composition.ComposeLenses` | Source/Composition.swift:269-276 | the composite reads through both lenses in order, and writes `d` as `outer.set(inner.set(d, outer.get(s)), s)` |
| `Composition.ComposeLensIso` | Source/Composition.swift:278-280 | a lens then an iso reads `iso.get(lens.get(s))` and writes `lens.set(iso.reverseGet(d), s)` |
| `Composition.ComposeLensSetter` | Source/Composition.swift:282-284 | a lens then a setter writes the setter's update of the lens's focus back with the lens |
| `Composition.ComposeIsos` | Source/Composition.swift:359-364 | `get` converts through both isos in order, `reverseGet` back through both in the opposite order |
| `Composition.ComposeIsoSetter` | Source/Composition.swift:366-368 | an iso then a setter converts, updates and converts back |
| `Composition.ComposeIsoLens` | Source/Composition.swift:370-372 | an iso then a lens reads `lens.get(iso.get(s))` and writes `iso.reverseGet(lens.set(d, iso.get(s)))` |
| `Composition.ComposeIsoPrism` | Source/Composition.swift:374-376 | an iso then a prism matches on the converted structure and converts a miss back |
| `Composition.ComposeLensesLawful` | Source/Composition.swift:302-309 | composing lawful lenses gives a lawful lens, so setting through the composite and then getting returns the value set |
| `Composition.ComposePrismsLawful` | Source/Composition.swift:207-219 | composing lawful prisms gives a lawful prism |
| `Composition.ComposeIsosLawful` | Source/Composition.swift:398-403 | composing lawful isos gives a lawful iso |
| `Composition.ComposeSettersFuse` | Source/Composition.swift:96-100 | fusion holds for the composite of two lawful setters |
| `Composition.ComposeSettersIdentity` | Source/Composition.swift:97-99 | identity holds for the composite of two lawful setters |
| `Composition.ComposeSettersLawful` | Source/Composition.swift:95-103 | composing lawful setters gives a lawful setter |
| `Composition.ComposeLensIsoLawful` | Source/Composition.swift:319-321 | a lawful lens composed with a lawful iso is a lawful lens |
| `Composition.ComposeIsoPrismLawful` | Source/Composition.swift:429-431 | a lawful iso composed with a lawful prism is a lawful prism |
| `Composition.ComposeGettersAssociative` | Source/Composition.swift:8-10 | getter composition is associative |
| `Composition.ComposeLensesAssociative` | Source/Composition.swift:270-275 | lens composition is associative, for reading and for writing |
| `Composition.ComposePrismsAssociative` | Source/Composition.swift:170-180 | prism composition is associative, for matching and for building |
| `Composition.ComposeIsosAssociative` | Source/Composition.swift:359-364 | iso composition is associative, in `get` and in `reverseGet` (the tests named "associativity" in Test/IsoSpec.swift:28-38 check the contract of `Composition.ComposeIsos`) |
| `Composition.ComposeSettersAssociative` | Source/Composition.swift:54-58 | setter composition is associative when the outermost setter is congruent |
| `Composition.ComposeLensesAsSetter` | Source/Composition.swift:323-325 | composing two lenses and then weakening to a setter equals composing their setters |
| `Composition.ComposePrismsAsSetter` | Source/Composition.swift:233-235 | composing two prisms and then weakening to a setter equals composing their setters |
| `Composition.ComposeIsosWeaken` | Source/Composition.swift:417-431 | composing two isos and then weakening to a lens or a prism equals composing their lenses or their prisms |
| `Legacy.IsoModify` | L/Iso.swift:14-16 | the older iso `modify` is `reverseGet(f(get(x)))` |
| `Legacy.IsoSet` | L/Iso.swift:18-20 | the older iso `set(y, x)` is `reverseGet(y)` |
| `Legacy.IsoRevisionsAgree` | L/Iso.swift:13-25 | the older and the current iso `modify` and `set` agree everywhere |
| `Legacy.ComposePrisms` | L/Composition.swift:32-44 | older prism composition: outer miss kept; inner miss `b` becomes `Left(outer.set(b, s))`; inner hit passes through; `reverseGet` builds inner then outer |
| `Legacy.ComposePrismsRevisionsAgree` | L/Composition.swift:54-66 | the older `bimap` form and the current `map` form compose prisms to the same prism, pointwise |
| `Legacy.ComposePrismIso` | L/Composition.swift:46-48 | the older prism then iso: the iso is used as a prism, so a hit is converted by `get` |
| `Legacy.ComposePrismIsoRevisionsAgree` | L/Composition.swift:46-48 | the older prism-then-iso, built on the older prism composition, gives the same `tryGet` and `reverseGet` as the current one |
| `People.NameLens` | LTests/Person.swift:9-16 | the example name lens reads the name, and writing a name keeps the age |
| `People.EmployerLens` | Test/Company.swift:10-17 | the example employer lens reads the employer and replaces it whole |
| `People.EmployerNameLens` | Test/Company.swift:23 | the composite reads the employer's name; writing a name keeps the employer's age |
| `People.ExampleLensesLawful` | Test/Company.swift:7-18 | both example lenses and their composite are lawful |
| `People.RenameEmployer` | Test/Company.swift:20-29 | renaming "Steve Jobs" to "John Sculley" through the composite: the name read before and after, and the age kept |

## Older revision

The `L/` tree is an older revision. Where it writes an operation the same
way as the current revision, the current member models both:

- L/Setter.swift:11-13 (`set` through `modify`): `Setters.LSetter.Set`.
- L/Setter.swift:32-34 and 53-55 (`modify` of `LSetter` and `Setter`): the field `update`.
- L/Lens.swift:25-35 and 56-66 (`get`, `modify`, `set`): the fields `get` and `put`,
  `Lenses.LLens.Modify`, `Lenses.DerivedSetIsStoredSet` and `Lenses.ModifyIdentity`.
- L/Prism.swift:14-19 (`modify`): `Prisms.LPrism.Modify`.
- L/Prism.swift:21-23 (`set`): `Prisms.LPrism.Set`.
- L/Prism.swift:25-27 (`re`): `Prisms.LPrism.Re`.
- L/Prism.swift:29-41 (`first`): `Prisms.LPrism.First`.
- L/Prism.swift:45-58 (`asLSetter`, `asSetter` and `asPrism`): `Prisms.LPrism.AsLSetter` and `Prisms.LPrism.AsLPrism`.
- L/Prism.swift:61-81 (optional constructors): `Prisms.FromOptional`.
- L/Iso.swift:22-24 (`tryGet`): `Isos.LIso.TryGet`.
- L/Iso.swift:28-54 (`split`, `first` and `second`): `Isos.LIso.Split`, `Isos.LIso.First` and `Isos.LIso.Second`.
- L/Iso.swift:57-91 (conversions): the `Isos.LIso.As...` members.
  `asLLens` is built from the iso's `set`, which is `Isos.LIso.AsLLens`'s writer.
- L/Iso.swift:120-124 and 153-157 (`reverse`): `Isos.LIso.Reverse` and `Isos.ReverseReverse`.
- L/Composition.swift:8-26 (getter composition): `Composition.ComposeGetters`,
  `Composition.ComposeGetterLens` and `Composition.ComposeGetterIso`.
- L/Composition.swift:68-74 (simple prism then iso): `Legacy.ComposePrismIso`.
  Its contract is the one of `Composition.ComposePrismIso` on purpose: the
  older body goes through the older prism composition, and
  `Legacy.ComposePrismIsoRevisionsAgree` states that both revisions agree.
- L/Composition.swift:80-112 (lens composition and lens then iso):
  `Composition.ComposeLenses` and `Composition.ComposeLensIso`.
- L/Composition.swift:118-134 (iso composition): `Composition.ComposeIsos`.

The older revision has no `second`, `left` or `right` for prisms, and no
`left` or `right` for isos. It defines only the compositions listed above.

## Left out

- The Swift generic machinery is not modelled; each four-parameter datatype
  and its type-synonym simple form stand in for it. This covers the
  protocols with associated types: `SimpleOpticsProtocol` and
  `OpticsProtocol` in Source/Optics.swift, the per-kind `...Protocol` and
  `...Generator` protocols in Source/Setter.swift, Source/Getter.swift,
  Source/Lens.swift, Source/Prism.swift and Source/Iso.swift, and the older
  `GetterType`, `SetterType`, `LensType`, `PrismType` and `IsoType` in the
  `L/` files. It also covers their `where` clauses and the overload
  resolution of `compose` and `>>>`. Several of these refine
  `OpticsType` or `SimpleOpticsType`, whose declarations are not part of
  this model.
- The `>>>` operators are not separate members. Each one returns
  `lhs.compose(rhs)`, so the `Compose...` function for its operand kinds
  models it.
- Composition covers exactly the pairs the source defines. No
  lens-then-prism, prism-then-lens or getter-then-prism composition exists
  there, so none is modelled.
- `Either`, `id` and `•` from the external library are defined locally with
  the meaning the Swift types force. Nothing else of that library is
  modelled.
- The tests' random inputs are replaced by universally quantified lemma
  parameters; an inverse pair `to` / `from` stands for SwiftCheck's
  `IsoOf`. The random match in Test/PrismSpec.swift (`arc4random`) is not
  modelled; `Prisms.RightIdentity` holds instead for every match function
  whose hits rebuild their structure, as the test's `to` / `from` pair does.
- The JSON decoding examples in LTests/TestTypes.swift and
  LTests/PrismTest.swift (Himotoki, `JSONSerialization`, string building)
  are I/O around the library, not part of it.
- Function values are compared only pointwise. A law about an operation
  that passes a fresh closure to a setter carries `Congruent`, the
  assumption that a setter sees only the values of the function it is
  given.
- Composition.ComposeSetterLens: its contract holds only for a congruent
  outer setter. Swift closures cannot tell two pointwise-equal functions
  apart, so the source needs no such assumption.
- Composition.ComposeSetterPrism: its contract holds only for a congruent
  outer setter, for the same reason.
- Composition.ComposeSetterIso: its contract holds only for a congruent
  outer setter, for the same reason.
- Composition.ComposeSettersAssociative: proved only for a congruent
  outermost setter, for the same reason.

## Findings

| source | as written | input that shows it | evidently intended | confidence | as-written member | corrected member |
|---|---|---|---|---|---|---|
| Source/Prism.swift:70-93 | the two sum combinators treat the case they pass through differently: `left` (line 73) reports `Right(x)` as the hit `Right(Right(x))`, `right` (line 91) reports `Left(x)` as the miss `Left(Left(x))` | any prism `p` and any `x`: `p.left.tryGet(Right(x))` is a hit, `p.right.tryGet(Left(x))` is a miss; and `p.right.tryGet(p.right.reverseGet(Left(x)))` is that miss, not `Right(Left(x))` | one of two conventions, applied to both. (a) Round trip: the passed-through case is a hit, as in `left`; then `right` should send `Left(x)` to `Right(Left(x))`, and a lawful prism gives a lawful prism (`Prisms.RightMirroredLawful`). (b) No match: a case the prism does not look into is a miss that keeps the value, as in `right`; then `left` should send `Right(x)` to `Left(Right(x))`, which keeps the miss law, the hit law and `modify(e, id) == e` (`Prisms.LeftAsMissKeeps`) but, like `right` (`Prisms.RightKeepsMissAndHit`), not the round trip on that case. The library's tests and comments state neither convention; the corrected-member cell names intent (a), and `Prisms.LeftAsMissKeeps` is the proof for intent (b) | low, not executed | `Prisms.LeftRightAsymmetric` | `Prisms.RightMirroredLawful` |
