/** The reflection helper behind detached-entity reconciliation: a first-match
    search for a method by name and parameter types, where parameter types are
    compared field by field rather than by identity. */
module TypeExtensions {
  import opened Wrappers

  /** A runtime type as the comparer sees it. AssemblyQualifiedName is null for
      an open generic type (a method's own type parameter, or a generic type
      over it), and Namespace is null for a type in the global namespace. */
  datatype TypeDesc = TypeDesc(assemblyQualifiedName: Option<string>, namespace: Option<string>, name: string)

  /** A method as reflection reports it: its name and its parameters' types in
      declaration order. */
  datatype MethodDesc = MethodDesc(name: string, parameterTypes: seq<TypeDesc>)

  datatype ComparerError = NotImplemented

  /** SimpleTypeComparer.Equals: the three identifying strings agree (two null
      strings compare equal, as C#'s == does). */
  predicate SimpleTypeEquals(x: TypeDesc, y: TypeDesc) {
    && x.assemblyQualifiedName == y.assemblyQualifiedName
    && x.namespace == y.namespace
    && x.name == y.name
  }

  /** SimpleTypeComparer.GetHashCode is not implemented and always throws. */
  function GetHashCode(t: TypeDesc): (r: Result<int, ComparerError>)
    ensures r.Failure? && r.error == NotImplemented
  {
    Failure(NotImplemented)
  }

  /** Enumerable.SequenceEqual under SimpleTypeComparer: the two lists have the
      same length and agree element by element. */
  function SequenceEqual(xs: seq<TypeDesc>, ys: seq<TypeDesc>): (r: bool)
    ensures r <==> |xs| == |ys| && forall i :: 0 <= i < |xs| ==> SimpleTypeEquals(xs[i], ys[i])
  {
    if xs == [] || ys == [] then
      xs == ys
    else
      SimpleTypeEquals(xs[0], ys[0]) && SequenceEqual(xs[1..], ys[1..])
  }

  /** The test the search loop applies to each method. */
  predicate IsMatch(m: MethodDesc, name: string, parameterTypes: seq<TypeDesc>) {
    m.name == name && SequenceEqual(m.parameterTypes, parameterTypes)
  }

  /** Reference definition of the search: the position of the first matching
      method, if any. */
  function FirstMatch(methods: seq<MethodDesc>, name: string, parameterTypes: seq<TypeDesc>): (r: Option<nat>)
    ensures r.Some? ==> r.value < |methods| && IsMatch(methods[r.value], name, parameterTypes)
    ensures r.Some? ==> forall j :: 0 <= j < r.value ==> !IsMatch(methods[j], name, parameterTypes)
    ensures r.None? <==> forall j :: 0 <= j < |methods| ==> !IsMatch(methods[j], name, parameterTypes)
  {
    if methods == [] then
      None
    else if IsMatch(methods[0], name, parameterTypes) then
      Some(0)
    else
      match FirstMatch(methods[1..], name, parameterTypes)
      case None => None
      case Some(i) => Some(i + 1)
  }

  /** GetGenericMethod: walk the methods in enumeration order and return the
      first one whose name and parameter-type list match; null (None) when the
      walk ends without a match. */
  method GetGenericMethod(methods: seq<MethodDesc>, name: string, parameterTypes: seq<TypeDesc>)
    returns (r: Option<MethodDesc>)
    ensures r.Some? ==> r.value.name == name
    ensures r.Some? ==> |r.value.parameterTypes| == |parameterTypes|
    ensures r.Some? ==> forall i :: 0 <= i < |parameterTypes| ==> SimpleTypeEquals(r.value.parameterTypes[i], parameterTypes[i])
    ensures r.None? <==> forall j :: 0 <= j < |methods| ==> !IsMatch(methods[j], name, parameterTypes)
    ensures r == match FirstMatch(methods, name, parameterTypes)
                 case None => None
                 case Some(i) => Some(methods[i])
  {
    for k := 0 to |methods|
      invariant forall j :: 0 <= j < k ==> !IsMatch(methods[j], name, parameterTypes)
    {
      var m := methods[k];
      if m.name == name && SequenceEqual(m.parameterTypes, parameterTypes) {
        FirstMatchIsFirstHit(methods, name, parameterTypes, k);
        return Some(m);
      }
    }
    return None;
  }

  /** A match at position k with no match before it is what FirstMatch finds. */
  lemma {:induction false} FirstMatchIsFirstHit(methods: seq<MethodDesc>, name: string, parameterTypes: seq<TypeDesc>, k: nat)
    requires k < |methods| && IsMatch(methods[k], name, parameterTypes)
    requires forall j :: 0 <= j < k ==> !IsMatch(methods[j], name, parameterTypes)
    ensures FirstMatch(methods, name, parameterTypes) == Some(k)
  {
    if k > 0 {
      FirstMatchIsFirstHit(methods[1..], name, parameterTypes, k - 1);
    }
  }

  /** Parameter lists of different lengths never match. */
  lemma LengthMismatchNeverMatches(xs: seq<TypeDesc>, ys: seq<TypeDesc>)
    requires |xs| != |ys|
    ensures !SequenceEqual(xs, ys)
  {
  }

  /** The comparer is an equivalence relation; in fact it is equality of the
      three fields, and a TypeDesc has no other field. */
  lemma SimpleTypeEqualsIsEquivalence(x: TypeDesc, y: TypeDesc, z: TypeDesc)
    ensures SimpleTypeEquals(x, x)
    ensures SimpleTypeEquals(x, y) <==> SimpleTypeEquals(y, x)
    ensures SimpleTypeEquals(x, y) && SimpleTypeEquals(y, z) ==> SimpleTypeEquals(x, z)
    ensures SimpleTypeEquals(x, y) <==> x == y
  {
  }

  // The reflection table the reconciler searches: the methods DataStore
  // declares, in declaration order, with the types of their parameters.

  const Int32Type := TypeDesc(Some("System.Int32, System.Private.CoreLib"), Some("System"), "Int32")
  const Int64Type := TypeDesc(Some("System.Int64, System.Private.CoreLib"), Some("System"), "Int64")
  const DbContextType := TypeDesc(Some("Microsoft.EntityFrameworkCore.DbContext, Microsoft.EntityFrameworkCore"),
                                  Some("Microsoft.EntityFrameworkCore"), "DbContext")
  const DataItemType := TypeDesc(Some("spyderSoft.DataLayer.Core.IDataItem, spyderSoft.DataLayer.Core"),
                                 Some("spyderSoft.DataLayer.Core"), "IDataItem")
  const DataItemsType := TypeDesc(Some("System.Collections.Generic.IEnumerable`1[[spyderSoft.DataLayer.Core.IDataItem]]"),
                                  Some("System.Collections.Generic"), "IEnumerable`1")
  const StringType := TypeDesc(Some("System.String, System.Private.CoreLib"), Some("System"), "String")
  /** A method's own type parameter: no assembly-qualified name. */
  function TypeParameter(name: string): TypeDesc {
    TypeDesc(None, Some("spyderSoft.DataLayer.Core.EntityFramework"), name)
  }
  /** Expression<Func<T, bool>> over a type parameter: an open generic type. */
  const PredicateType := TypeDesc(None, Some("System.Linq.Expressions"), "Expression`1")
  /** IEnumerable<T> over a type parameter: an open generic type. */
  const OpenEnumerableType := TypeDesc(None, Some("System.Collections.Generic"), "IEnumerable`1")

  const DataStoreMethods: seq<MethodDesc> := [
    MethodDesc("get_DataStorePath", []),
    MethodDesc("set_DataStorePath", [StringType]),
    MethodDesc("FixDynamicExpression", [PredicateType]),
    MethodDesc("DeleteItem", [DataItemType]),
    MethodDesc("DeleteItems", [DataItemsType]),
    MethodDesc("GetItem", [Int64Type]),
    MethodDesc("GetItems", [PredicateType, Int32Type, Int32Type]),
    MethodDesc("GetItems", [PredicateType]),
    MethodDesc("GetItems", []),
    MethodDesc("GetItems", [Int32Type, Int32Type]),
    MethodDesc("GetItemsQueryable", []),
    MethodDesc("GetItemsCount", [PredicateType]),
    MethodDesc("GetItemsCount", []),
    MethodDesc("SaveItem", [TypeParameter("T")]),
    MethodDesc("SaveItems", [OpenEnumerableType]),
    MethodDesc("ProcessSaveItems", [OpenEnumerableType]),
    MethodDesc("ProcessSaveItem", [TypeParameter("TDataContract")]),
    MethodDesc("ProcessSaveItem", [TypeParameter("TDataContract"), DbContextType]),
    MethodDesc("ProcessDeleteItem", [DataItemType]),
    MethodDesc("ProcessDeleteItem", [TypeParameter("TDataItem"), DbContextType]),
    MethodDesc("ProcessDeleteItems", [DataItemsType]),
    MethodDesc("ProcessGetItem", [Int64Type]),
    MethodDesc("ProcessGetItem", [Int64Type, DbContextType]),
    MethodDesc("ProcessGetItems", [PredicateType, Int32Type, Int32Type]),
    MethodDesc("ProcessGetItems", [PredicateType, Int32Type, Int32Type, DbContextType]),
    MethodDesc("ProcessGetItems", [PredicateType]),
    MethodDesc("ProcessGetItems", [PredicateType, DbContextType]),
    MethodDesc("ProcessGetItems", []),
    MethodDesc("ProcessGetItems", [DbContextType]),
    MethodDesc("ProcessGetItems", [Int32Type, Int32Type]),
    MethodDesc("ProcessGetItems", [Int32Type, Int32Type, DbContextType]),
    MethodDesc("ProcessGetItemsCount", [PredicateType]),
    MethodDesc("ProcessGetItemsCount", [PredicateType, DbContextType]),
    MethodDesc("ProcessGetItemsCount", []),
    MethodDesc("ProcessGetItemsCount", [DbContextType]),
    MethodDesc("GetKeyAsExpression", [])
  ]

  /** The lookup ProcessDeleteItem performs for a detached item,
      GetGenericMethod("ProcessGetItem", [long, DbContext]), resolves to the
      two-parameter ProcessGetItem overload and to nothing else: the
      one-parameter overload differs in length, every other method in name. */
  lemma ReconcilerLookupResolves()
    ensures FirstMatch(DataStoreMethods, "ProcessGetItem", [Int64Type, DbContextType]) == Some(22)
    ensures DataStoreMethods[22] == MethodDesc("ProcessGetItem", [Int64Type, DbContextType])
    ensures forall j :: 0 <= j < |DataStoreMethods| && j != 22 ==>
              !IsMatch(DataStoreMethods[j], "ProcessGetItem", [Int64Type, DbContextType])
  {
    var target := [Int64Type, DbContextType];
    assert !SequenceEqual(DataStoreMethods[21].parameterTypes, target);
    forall j | 0 <= j < |DataStoreMethods| && j != 22
      ensures !IsMatch(DataStoreMethods[j], "ProcessGetItem", target)
    {
      if j != 21 {
        assert DataStoreMethods[j].name != "ProcessGetItem";
      }
    }
    FirstMatchIsFirstHit(DataStoreMethods, "ProcessGetItem", target, 22);
  }
}
