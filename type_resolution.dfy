/** `RunnerProgram.ResolveType`: from a user-supplied class name to one type of the assembly. */
module TypeResolution {
  import opened Wrappers
  import opened Text
  import opened Linq
  import opened Reflection

  /** `assembly.GetType(name)`: the position of the type whose `FullName` is exactly `name`, if any. */
  function ExactIndex(types: seq<TypeRef>, name: string): (r: Option<nat>)
    ensures r.None? <==> forall i :: 0 <= i < |types| ==> types[i].fullName != Some(name)
    ensures r.Some? ==> r.value < |types| && types[r.value].fullName == Some(name)
    ensures r.Some? ==> forall j :: 0 <= j < r.value ==> types[j].fullName != Some(name)
  {
    if |types| == 0 then None
    else if types[0].fullName == Some(name) then Some(0)
    else match ExactIndex(types[1..], name)
      case None => None
      case Some(k) => Some(k + 1)
  }

  /** The filter of the fuzzy lookup: `(t.FullName ?? t.Name).Contains(name)`. */
  predicate Mentions(t: TypeRef, name: string) {
    Contains(DisplayName(t), name)
  }

  /** The key of the fuzzy lookup: `t.FullName?.Length ?? t.Name.Length`, in UTF-16 code units. */
  function NameLength(t: TypeRef): nat {
    Utf16Length(DisplayName(t))
  }

  /**
   * `ResolveType(assembly, classArgumentValue)`. A null argument fails before
   * any type is looked at; an exact full-name match wins outright; otherwise the
   * type with the shortest name among those whose name contains the argument,
   * the earliest of them on ties; null when nothing contains it.
   */
  function ResolveType(assembly: Assembly, query: Option<string>): (r: Option<TypeRef>)
    ensures query.None? ==> r.None?
    ensures r.Some? ==> r.value in assembly.types
  {
    match query
    case None => None
    case Some(name) =>
      match ExactIndex(assembly.types, name)
      case Some(i) => Some(assembly.types[i])
      case None => WhereMinBy(assembly.types, t => Mentions(t, name), NameLength)
  }

  /** A null query fails whatever the assembly holds. */
  lemma NullQueryFails(assembly: Assembly)
    ensures ResolveType(assembly, None) == None
  {
  }

  /**
   * The first type whose full name is exactly the query is returned, even when
   * another type has a shorter name that contains the query.
   */
  lemma ExactMatchWins(assembly: Assembly, i: nat, name: string)
    requires i < |assembly.types| && assembly.types[i].fullName == Some(name)
    requires forall j :: 0 <= j < i ==> assembly.types[j].fullName != Some(name)
    ensures ResolveType(assembly, Some(name)) == Some(assembly.types[i])
  {
    var k := ExactIndex(assembly.types, name).value;
    assert !(k < i) && !(i < k);
  }

  /**
   * Without an exact match the result contains the query, no type that
   * contains the query has a shorter name, and every earlier type that
   * contains it has a strictly longer name.
   */
  lemma FuzzyMatchIsShortestFirst(assembly: Assembly, name: string)
    requires ExactIndex(assembly.types, name).None?
    requires ResolveType(assembly, Some(name)).Some?
    ensures var t := ResolveType(assembly, Some(name)).value;
            Mentions(t, name) &&
            (forall u :: u in assembly.types && Mentions(u, name) ==> NameLength(t) <= NameLength(u)) &&
            exists k :: 0 <= k < |assembly.types| && assembly.types[k] == t &&
              forall j :: 0 <= j < k && Mentions(assembly.types[j], name) ==> NameLength(t) < NameLength(assembly.types[j])
  {
    var types := assembly.types;
    var k := WhereMinByIndex(types, t => Mentions(t, name), NameLength).value;
    forall u | u in types && Mentions(u, name)
      ensures NameLength(types[k]) <= NameLength(u)
    {
      var j :| 0 <= j < |types| && types[j] == u;
    }
  }

  /**
   * ResolveType returns null exactly when no type's full name equals the query
   * and no type's `FullName ?? Name` contains it.
   */
  lemma NotFoundExactly(assembly: Assembly, name: string)
    ensures ResolveType(assembly, Some(name)).None? <==>
            forall t :: t in assembly.types ==> t.fullName != Some(name) && !Mentions(t, name)
  {
    var types := assembly.types;
    if ResolveType(assembly, Some(name)).None? {
      forall t | t in types
        ensures t.fullName != Some(name) && !Mentions(t, name)
      {
        var j :| 0 <= j < |types| && types[j] == t;
      }
    } else if ExactIndex(types, name).None? {
      var k := WhereMinByIndex(types, t => Mentions(t, name), NameLength).value;
      assert types[k] in types && Mentions(types[k], name);
    } else {
      var k := ExactIndex(types, name).value;
      assert types[k] in types;
    }
  }

  /**
   * The worked example: in an assembly defining `My.Namespace.Widget` and
   * `My.Namespace.Sub.Widgetry`, the query "Widget" resolves to the former,
   * the shorter name, whichever order the types come in.
   */
  lemma WidgetExample(widget: TypeRef, widgetry: TypeRef, assembly: Assembly)
    requires widget.fullName == Some("My.Namespace.Widget")
    requires widgetry.fullName == Some("My.Namespace.Sub.Widgetry")
    requires assembly.types == [widgetry, widget] || assembly.types == [widget, widgetry]
    ensures ResolveType(assembly, Some("Widget")) == Some(widget)
  {
    NoExactMatch(assembly.types, "Widget");
    WidgetFacts(widget, widgetry);
    ShorterOfTwoWins(widget, widgetry, assembly, "Widget");
  }

  /**
   * Of two types that both contain a query no full name equals, the one with
   * the shorter name is chosen, in either order.
   */
  lemma ShorterOfTwoWins(shorter: TypeRef, longer: TypeRef, assembly: Assembly, name: string)
    requires assembly.types == [longer, shorter] || assembly.types == [shorter, longer]
    requires ExactIndex(assembly.types, name).None?
    requires Mentions(shorter, name) && Mentions(longer, name)
    requires NameLength(shorter) < NameLength(longer)
    ensures ResolveType(assembly, Some(name)) == Some(shorter)
  {
    var p := t => Mentions(t, name);
    if assembly.types == [longer, shorter] {
      assert assembly.types[..1] == [longer];
      assert WhereMinByIndex([longer], p, NameLength) == Some(0);
      assert WhereMinByIndex(assembly.types, p, NameLength) == Some(1);
    } else {
      assert assembly.types[..1] == [shorter];
      assert WhereMinByIndex([shorter], p, NameLength) == Some(0);
      assert WhereMinByIndex(assembly.types, p, NameLength) == Some(0);
    }
  }

  /**
   * Lengths are .NET's UTF-16 lengths: `X\U{1F600}\U{1F600}` has three
   * characters but five code units, so the query "X" resolves to `XYZW`
   * (four) in either order.
   */
  lemma SurrogatePairsCountTwice(xyzw: TypeRef, smiles: TypeRef, assembly: Assembly)
    requires xyzw.fullName == Some("XYZW")
    requires smiles.fullName == Some("X\U{1F600}\U{1F600}")
    requires assembly.types == [smiles, xyzw] || assembly.types == [xyzw, smiles]
    ensures ResolveType(assembly, Some("X")) == Some(xyzw)
  {
    NoExactMatch(assembly.types, "X");
    assert OccursAt("XYZW", "X", 0) && OccursAt("X\U{1F600}\U{1F600}", "X", 0);
    var a, b := "XYZW", "X\U{1F600}\U{1F600}";
    assert forall i :: 0 <= i < |a| ==> a[i] as int <= 0x7F;
    Utf16LengthIsCharCount(a);
    assert b[1..][1..][1..] == [];
    assert Utf16Length(b) == 1 + 2 + 2;
    ShorterOfTwoWins(xyzw, smiles, assembly, "X");
  }

  /** A query no full name equals has no exact match. */
  lemma NoExactMatch(types: seq<TypeRef>, name: string)
    requires forall t :: t in types ==> t.fullName != Some(name)
    ensures ExactIndex(types, name).None?
  {
  }

  /** What the worked example turns on: neither name is "Widget", both contain it, and `Widget`'s is shorter. */
  lemma WidgetFacts(widget: TypeRef, widgetry: TypeRef)
    requires widget.fullName == Some("My.Namespace.Widget")
    requires widgetry.fullName == Some("My.Namespace.Sub.Widgetry")
    ensures widget.fullName != Some("Widget") && widgetry.fullName != Some("Widget")
    ensures Mentions(widget, "Widget") && Mentions(widgetry, "Widget")
    ensures NameLength(widget) < NameLength(widgetry)
  {
    assert OccursAt("My.Namespace.Widget", "Widget", 13);
    assert OccursAt("My.Namespace.Sub.Widgetry", "Widget", 17);
    WidgetLength(widget);
    assert NameLength(widgetry) >= |DisplayName(widgetry)| == 25;
  }

  /** `My.Namespace.Widget` is ASCII, so its UTF-16 length is its 19 characters. */
  lemma WidgetLength(widget: TypeRef)
    requires widget.fullName == Some("My.Namespace.Widget")
    ensures NameLength(widget) == 19
  {
    var w := "My.Namespace.Widget";
    assert forall i :: 0 <= i < |w| ==> w[i] as int <= 0x7F;
    Utf16LengthIsCharCount(w);
  }
}
