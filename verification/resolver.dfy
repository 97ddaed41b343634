/** Deciding which executable, if any, the generated image stages. */
module Resolver {
  import opened Base
  import opened Commands

  /** Product and target kinds as far as this decision cares. */
  datatype Kind = Executable | Library | Other

  /** A named product or target of the package manifest. */
  datatype Unit = Unit(name: string, kind: Kind)

  /** The loaded package manifest: products and targets in declaration order. */
  datatype Manifest = Manifest(products: seq<Unit>, targets: seq<Unit>)

  /** `i` is the position of the first unit called `name`. */
  ghost predicate FirstNamedAt(units: seq<Unit>, name: string, i: int)
  {
    0 <= i < |units| && units[i].name == name
    && forall j :: 0 <= j < i ==> units[j].name != name
  }

  /** `i` is the position of the first executable unit. */
  ghost predicate FirstExecutableAt(units: seq<Unit>, i: int)
  {
    0 <= i < |units| && units[i].kind == Executable
    && forall j :: 0 <= j < i ==> units[j].kind != Executable
  }

  /** `units.first(where: { $0.name == name })`. */
  function FirstNamed(units: seq<Unit>, name: string): (r: Option<Unit>)
    ensures r.None? <==> forall j :: 0 <= j < |units| ==> units[j].name != name
    ensures r.Some? ==> exists i :: FirstNamedAt(units, name, i) && units[i] == r.value
  {
    if |units| == 0 then None
    else if units[0].name == name then
      assert FirstNamedAt(units, name, 0);
      Some(units[0])
    else
      var r := FirstNamed(units[1..], name);
      if r.Some? then
        assert forall i :: FirstNamedAt(units[1..], name, i) ==> FirstNamedAt(units, name, i + 1);
        r
      else r
  }

  /** `units.first(where: { $0.type == .executable })?.name`. */
  function FirstExecutableName(units: seq<Unit>): (r: Option<string>)
    ensures r.None? <==> forall j :: 0 <= j < |units| ==> units[j].kind != Executable
    ensures r.Some? ==> exists i :: FirstExecutableAt(units, i) && units[i].name == r.value
  {
    if |units| == 0 then None
    else if units[0].kind == Executable then
      assert FirstExecutableAt(units, 0);
      Some(units[0].name)
    else
      var r := FirstExecutableName(units[1..]);
      if r.Some? then
        assert forall i :: FirstExecutableAt(units[1..], i) ==> FirstExecutableAt(units, i + 1);
        r
      else r
  }

  /** The name is staged when the first unit carrying it is executable. */
  function SelectNamed(units: seq<Unit>, name: string): (r: Option<string>)
    ensures r.Some? <==> exists i :: FirstNamedAt(units, name, i) && units[i].kind == Executable
    ensures r.Some? ==> r.value == name
  {
    var u := FirstNamed(units, name);
    if u.Some? && u.value.kind == Executable then Some(name) else None
  }

  /** The executable the image stages. An explicit `--product` wins over
      `--target`; with neither, only `run` looks for one, preferring
      products to targets. */
  function Resolve(m: Manifest, product: Option<string>, target: Option<string>, op: Operation): (exe: Option<string>)
    ensures product.Some? ==>
              (exe.Some? <==> exists i :: FirstNamedAt(m.products, product.value, i) && m.products[i].kind == Executable)
              && (exe.Some? ==> exe.value == product.value)
    ensures product.None? && target.Some? ==>
              (exe.Some? <==> exists i :: FirstNamedAt(m.targets, target.value, i) && m.targets[i].kind == Executable)
              && (exe.Some? ==> exe.value == target.value)
    ensures product.None? && target.None? && op != Run ==> exe.None?
    ensures product.None? && target.None? && op == Run ==>
              (exe.None? <==> (forall j :: 0 <= j < |m.products| ==> m.products[j].kind != Executable)
                              && (forall j :: 0 <= j < |m.targets| ==> m.targets[j].kind != Executable))
    ensures product.None? && target.None? && op == Run && exe.Some? ==>
              (exists i :: FirstExecutableAt(m.products, i) && m.products[i].name == exe.value)
              || ((forall j :: 0 <= j < |m.products| ==> m.products[j].kind != Executable)
                  && exists i :: FirstExecutableAt(m.targets, i) && m.targets[i].name == exe.value)
  {
    if product.Some? then SelectNamed(m.products, product.value)
    else if target.Some? then SelectNamed(m.targets, target.value)
    else if op == Run then
      match FirstExecutableName(m.products)
      case Some(name) => Some(name)
      case None => FirstExecutableName(m.targets)
    else None
  }

  /** The first unit with a name is unique, so "the first one is executable"
      is a property of the name alone. */
  lemma FirstNamedUnique(units: seq<Unit>, name: string, i: int, k: int)
    requires FirstNamedAt(units, name, i) && FirstNamedAt(units, name, k)
    ensures i == k
  {
  }

  /** A product that exists but is not executable stages nothing, even when
      an executable target of the same name exists. */
  lemma LibraryProductStagesNothing(m: Manifest, p: string, target: Option<string>, op: Operation)
    requires exists i :: FirstNamedAt(m.products, p, i) && m.products[i].kind != Executable
    ensures Resolve(m, Some(p), target, op) == None
  {
    var i :| FirstNamedAt(m.products, p, i) && m.products[i].kind != Executable;
    forall k | FirstNamedAt(m.products, p, k)
      ensures m.products[k].kind != Executable
    {
      FirstNamedUnique(m.products, p, i, k);
    }
  }

  /** A manifest with a library followed by an executable product: `run`
      stages the executable, `build` stages nothing. */
  lemma LibraryThenAppExample()
    ensures var m := Manifest([Unit("lib", Library), Unit("app", Executable)], []);
            Resolve(m, None, None, Run) == Some("app") && Resolve(m, None, None, Build) == None
  {
    var m := Manifest([Unit("lib", Library), Unit("app", Executable)], []);
    assert FirstExecutableName(m.products[1..]) == Some("app");
  }
}
