// The configuration value tree: an `Array` maps names to variables in
// std::map order, and the scalars are `String`, `Number` and `Bool`. A
// `Number`'s double is kept as the lexeme it is converted from.
module ConfigReflection {
  import opened Wrappers
  import opened SortedMaps
  import opened Strings

  /** A configuration variable; an array's entries are a sorted map. */
  datatype Variable =
    | ArrayVar(entries: seq<(string, Variable)>)
    | StringVar(s: string)
    | NumberVar(lexeme: string)
    | BoolVar(b: bool)

  /** `getTypeName()`. */
  function TypeName(v: Variable): (r: string)
    ensures r == "Array" <==> v.ArrayVar?
    ensures r == "String" <==> v.StringVar?
    ensures r == "Number" <==> v.NumberVar?
    ensures r == "Bool" <==> v.BoolVar?
  {
    match v
    case ArrayVar(_) => "Array"
    case StringVar(_) => "String"
    case NumberVar(_) => "Number"
    case BoolVar(_) => "Bool"
  }

  /** The default-constructed variables: an empty array, "", 0.0, false. */
  const EmptyArray: Variable := ArrayVar([])
  const DefaultString: Variable := StringVar("")
  const DefaultNumber: Variable := NumberVar("0.0")
  const DefaultBool: Variable := BoolVar(false)

  /** The generic `TypedVariable<T>`: a type name and a value. */
  datatype Typed<T> = Typed(typeName: string, value: T)

  /** The generic copy constructor copies the value but not the type name. */
  function CopyTyped<T>(ref: Typed<T>): (r: Typed<T>)
    ensures r.value == ref.value && r.typeName == ""
    ensures ref.typeName != "" ==> r != ref
  {
    Typed("", ref.value)
  }

  /** `operator=`: the value is copied, the target keeps its type name. */
  function AssignTyped<T>(dst: Typed<T>, ref: Typed<T>): (r: Typed<T>)
    ensures r.value == ref.value && r.typeName == dst.typeName
  {
    dst.(value := ref.value)
  }

  /** Every array in the tree is a sorted map. */
  ghost predicate Ordered(v: Variable)
    decreases v
  {
    v.ArrayVar? ==>
      Sorted(v.entries, StrLess) &&
      forall i :: 0 <= i < |v.entries| ==> Ordered(v.entries[i].1)
  }

  /** `aaccess(a)[name] = x`: insert or replace an entry of an array. */
  function Expose(a: Variable, name: string, x: Variable): (r: Variable)
    requires a.ArrayVar? && Ordered(a) && Ordered(x)
    ensures r.ArrayVar? && Ordered(r)
  {
    StrLessIsStrictTotal();
    PutEntries(a.entries, name, x, StrLess);
    var es := Put(a.entries, name, x, StrLess);
    assert forall i :: 0 <= i < |es| ==> es[i] in es;
    ArrayVar(es)
  }

  /** After `aaccess(a)[name] = x`, `name` finds `x` and every other name
    * finds what it found before. */
  lemma {:induction false} ExposeFinds(a: Variable, name: string, x: Variable, k: string)
    requires a.ArrayVar? && Ordered(a) && Ordered(x)
    ensures Lookup(Expose(a, name, x).entries, k) ==
      if k == name then Some(x) else Lookup(a.entries, k)
  {
    StrLessIsStrictTotal();
    PutLookup(a.entries, name, x, StrLess, k);
  }

  /** The variable a path of names leads to from `v`. */
  function At(v: Variable, path: seq<string>): Option<Variable>
    decreases |path|
  {
    if path == [] then Some(v)
    else if !v.ArrayVar? then None
    else match Lookup(v.entries, path[0])
      case None => None
      case Some(c) => At(c, path[1..])
  }

  /** `a` is a prefix of `b`. */
  predicate IsPrefix(a: seq<string>, b: seq<string>) {
    |a| <= |b| && a == b[..|a|]
  }

  predicate IsArrayAt(v: Variable, path: seq<string>) {
    At(v, path).Some? && At(v, path).value.ArrayVar?
  }

  /** In an ordered tree, what `find` returns is ordered too. */
  lemma LookupOrdered(v: Variable, k: string)
    requires v.ArrayVar? && Ordered(v) && Lookup(v.entries, k).Some?
    ensures Ordered(Lookup(v.entries, k).value)
  {
    var i :| 0 <= i < |v.entries| && v.entries[i] == (k, Lookup(v.entries, k).value);
  }

  /** Every variable in an ordered tree is ordered. */
  lemma {:induction false} AtOrdered(v: Variable, path: seq<string>)
    requires Ordered(v) && At(v, path).Some?
    ensures Ordered(At(v, path).value)
    decreases |path|
  {
    if path != [] {
      LookupOrdered(v, path[0]);
      AtOrdered(Lookup(v.entries, path[0]).value, path[1..]);
    }
  }

  /** `paccess(p)[name] = x` where `p` points at the array `path` leads to:
    * the tree with that one entry stored. */
  function SetAt(v: Variable, path: seq<string>, name: string, x: Variable): (r: Variable)
    requires Ordered(v) && Ordered(x)
    ensures Ordered(r)
    ensures v.ArrayVar? ==> r.ArrayVar?
    decreases |path|
  {
    if !v.ArrayVar? then v
    else if path == [] then Expose(v, name, x)
    else match Lookup(v.entries, path[0])
      case None => v
      case Some(c) =>
        LookupOrdered(v, path[0]);
        Expose(v, path[0], SetAt(c, path[1..], name, x))
  }

  /** Storing through a path updates the array the path leads to. */
  lemma {:induction false} SetAtUpdates(v: Variable, path: seq<string>, name: string, x: Variable)
    requires Ordered(v) && Ordered(x) && IsArrayAt(v, path)
    ensures Ordered(At(v, path).value)
    ensures At(SetAt(v, path, name, x), path) == Some(Expose(At(v, path).value, name, x))
    decreases |path|
  {
    AtOrdered(v, path);
    if path != [] {
      var c := Lookup(v.entries, path[0]).value;
      LookupOrdered(v, path[0]);
      SetAtUpdates(c, path[1..], name, x);
      ExposeFinds(v, path[0], SetAt(c, path[1..], name, x), path[0]);
    }
  }

  /** One more name past an array looks the name up in that array. */
  lemma {:induction false} AtExtend(v: Variable, path: seq<string>, name: string)
    requires IsArrayAt(v, path)
    ensures At(v, path + [name]) == Lookup(At(v, path).value.entries, name)
    decreases |path|
  {
    if path == [] {
      assert ([] + [name])[1..] == [];
    } else {
      assert (path + [name])[1..] == path[1..] + [name];
      AtExtend(Lookup(v.entries, path[0]).value, path[1..], name);
    }
  }

  /** After storing `x` under `name` in the array at `path`, the path
    * extended by `name` leads to `x`. */
  lemma {:induction false} SetAtStores(v: Variable, path: seq<string>, name: string, x: Variable)
    requires Ordered(v) && Ordered(x) && IsArrayAt(v, path)
    ensures At(SetAt(v, path, name, x), path + [name]) == Some(x)
  {
    SetAtUpdates(v, path, name, x);
    AtExtend(SetAt(v, path, name, x), path, name);
    ExposeFinds(At(v, path).value, name, x, name);
  }

  /** Storing an entry keeps every array on the way to it an array. */
  lemma {:induction false} SetAtKeepsArrays(v: Variable, path: seq<string>, name: string,
                                            x: Variable, q: seq<string>)
    requires Ordered(v) && Ordered(x) && IsArrayAt(v, path) && IsPrefix(q, path)
    ensures IsArrayAt(SetAt(v, path, name, x), q)
    decreases |path|
  {
    if q != [] {
      var c := Lookup(v.entries, path[0]).value;
      LookupOrdered(v, path[0]);
      ExposeFinds(v, path[0], SetAt(c, path[1..], name, x), path[0]);
      assert IsPrefix(q[1..], path[1..]);
      SetAtKeepsArrays(c, path[1..], name, x, q[1..]);
    }
  }

  /** Storing an entry keeps every array on the way to it an array. */
  lemma SetAtKeepsPrefixes(v: Variable, path: seq<string>, name: string, x: Variable)
    requires Ordered(v) && Ordered(x) && IsArrayAt(v, path)
    ensures forall q :: IsPrefix(q, path) ==> IsArrayAt(SetAt(v, path, name, x), q)
  {
    forall q | IsPrefix(q, path) ensures IsArrayAt(SetAt(v, path, name, x), q) {
      SetAtKeepsArrays(v, path, name, x, q);
    }
  }
}
