/**
 * `RunnerProgram.ResolveMethod`: from a user-supplied method name or metadata
 * token to one method of the assembly. The loops of the source are in the
 * method `ResolveMethod`; the functions before it say what those loops compute.
 */
module MethodResolution {
  import opened Wrappers
  import opened Text
  import opened Linq
  import opened Reflection

  // ---------------------------------------------------------------------------
  // Token path
  // ---------------------------------------------------------------------------

  /**
   * One module's answer to `module.ResolveMethod(token)` as the loop sees it:
   * a method, or nothing when the module returns null or throws (the exception
   * is swallowed).
   */
  function ResolveInModule(m: ModuleRef, token: int): Option<MethodRef> {
    if token in m.tokens && m.tokens[token].Resolves? then Some(m.tokens[token].target) else None
  }

  /**
   * The result of the first element, in order, for which `f` yields one:
   * both loops of the resolver stop at their first hit.
   */
  function FirstSome<T, U>(s: seq<T>, f: T -> Option<U>): Option<U> {
    if |s| == 0 then None
    else match f(s[0])
      case Some(u) => Some(u)
      case None => FirstSome(s[1..], f)
  }

  /**
   * The search yields the result of the first element that has one, after
   * only elements that have none, and yields nothing exactly when no element
   * has a result.
   */
  lemma {:induction false} FirstSomeIsFirst<T, U>(s: seq<T>, f: T -> Option<U>)
    ensures FirstSome(s, f).None? <==> forall i :: 0 <= i < |s| ==> f(s[i]).None?
    ensures FirstSome(s, f).Some? ==> exists i :: 0 <= i < |s| && FirstSome(s, f) == f(s[i]) &&
                                       forall j :: 0 <= j < i ==> f(s[j]).None?
  {
    if |s| > 0 && f(s[0]).None? {
      FirstSomeIsFirst(s[1..], f);
      assert forall i :: 0 < i < |s| ==> s[i] == s[1..][i - 1];
      if FirstSome(s, f).Some? {
        var i :| 0 <= i < |s| - 1 && FirstSome(s, f) == f(s[1..][i]) &&
                 forall j :: 0 <= j < i ==> f(s[1..][j]).None?;
        assert FirstSome(s, f) == f(s[i + 1]);
      }
    }
  }

  /** Once some element has a result, the elements after it are never consulted. */
  lemma {:induction false} FirstSomeIgnoresRest<T, U>(s: seq<T>, more: seq<T>, f: T -> Option<U>, i: nat)
    requires i < |s| && f(s[i]).Some?
    ensures FirstSome(s + more, f) == FirstSome(s, f)
  {
    var all := s + more;
    assert all[0] == s[0];
    if f(s[0]).None? {
      assert 0 < i && s[1..][i - 1] == s[i];
      FirstSomeIgnoresRest(s[1..], more, f, i - 1);
      assert all[1..] == s[1..] + more;
    }
  }

  /** The method from the first module, in order, that resolves the token; None when none does. */
  function ResolveByToken(modules: seq<ModuleRef>, token: int): Option<MethodRef> {
    FirstSome(modules, m => ResolveInModule(m, token))
  }

  /**
   * The token path yields the method of the first module that resolves the
   * token to a non-null method, skipping every module that throws or returns
   * null, and yields nothing exactly when no module resolves it.
   */
  lemma ResolveByTokenIsFirst(modules: seq<ModuleRef>, token: int)
    ensures var r := ResolveByToken(modules, token);
            r.None? <==> forall i :: 0 <= i < |modules| ==> ResolveInModule(modules[i], token).None?
    ensures var r := ResolveByToken(modules, token);
            r.Some? ==> exists i :: 0 <= i < |modules| && r == ResolveInModule(modules[i], token) &&
                          forall j :: 0 <= j < i ==> ResolveInModule(modules[j], token).None?
  {
    FirstSomeIsFirst(modules, m => ResolveInModule(m, token));
  }

  /** Once some module resolves the token, the modules after it are never consulted. */
  lemma LaterModulesIgnored(modules: seq<ModuleRef>, more: seq<ModuleRef>, token: int, i: nat)
    requires i < |modules| && ResolveInModule(modules[i], token).Some?
    ensures ResolveByToken(modules + more, token) == ResolveByToken(modules, token)
  {
    FirstSomeIgnoresRest(modules, more, m => ResolveInModule(m, token), i);
  }

  // ---------------------------------------------------------------------------
  // Name path
  // ---------------------------------------------------------------------------

  /** The class-name fragment of a query: the second-to-last `.`-segment, or "" when there is one segment. */
  function ClassFragment(query: string): (fragment: string)
    ensures '.' !in fragment
  {
    var t := Split(query, '.');
    SplitSegmentsExcludeSeparator(query, '.');
    if |t| == 1 then "" else t[|t| - 2]
  }

  /**
   * The last `.`-segment of a string, `s.Split('.').Last()`: the method
   * fragment of a query, and the simple name of a full type name.
   */
  function LastSegment(s: string): (segment: string)
    ensures '.' !in segment
  {
    var t := Split(s, '.');
    SplitSegmentsExcludeSeparator(s, '.');
    t[|t| - 1]
  }

  /** The filter of the name path, for a type with a full name. */
  predicate NameMatches(fullName: string, className: string, methodName: string, m: MethodRef) {
    Contains(LastSegment(fullName), className) && Contains(m.name, methodName)
  }

  function MethodNameLength(m: MethodRef): nat {
    Utf16Length(m.name)
  }

  /**
   * What one iteration of the name loop yields for a type: among its methods
   * whose name contains the method fragment, provided its simple name (the last
   * segment of its full name) contains the class fragment, one with the shortest
   * name, the earliest on ties. Nothing when `GetMethods` throws, and nothing
   * when the full name is null (either there are no methods to filter, or the
   * filter's `FullName.Split` throws and the exception is swallowed).
   */
  function TypeCandidate(t: TypeRef, className: string, methodName: string): (r: Option<MethodRef>)
    ensures r.Some? ==> t.methods.Listed? && t.fullName.Some?
  {
    match t.methods
    case Throws => None
    case Listed(ms) =>
      match t.fullName
      case None => None
      case Some(fullName) => WhereMinBy(ms, m => NameMatches(fullName, className, methodName, m), MethodNameLength)
  }

  /**
   * Within the type that yields a candidate: its simple name contains the
   * class fragment, the candidate is one of its methods and contains the method
   * fragment, no matching method has a shorter name, and every earlier matching
   * method has a strictly longer one. A type with a full name whose simple name
   * contains the class fragment yields nothing only when none of its methods
   * contains the method fragment.
   */
  lemma TypeCandidateIsShortest(t: TypeRef, className: string, methodName: string)
    ensures var r := TypeCandidate(t, className, methodName);
            r.Some? ==> (Contains(LastSegment(t.fullName.value), className) &&
              exists k :: 0 <= k < |t.methods.methods| && t.methods.methods[k] == r.value &&
                Contains(r.value.name, methodName) &&
                (forall j :: 0 <= j < |t.methods.methods| && Contains(t.methods.methods[j].name, methodName) ==>
                   MethodNameLength(r.value) <= MethodNameLength(t.methods.methods[j])) &&
                (forall j :: 0 <= j < k && Contains(t.methods.methods[j].name, methodName) ==>
                   MethodNameLength(r.value) < MethodNameLength(t.methods.methods[j])))
    ensures var r := TypeCandidate(t, className, methodName);
            r.None? && t.methods.Listed? && t.fullName.Some? && Contains(LastSegment(t.fullName.value), className) ==>
              forall j :: 0 <= j < |t.methods.methods| ==> !Contains(t.methods.methods[j].name, methodName)
  {
    if t.methods.Listed? && t.fullName.Some? {
      var ms, fullName := t.methods.methods, t.fullName.value;
      var p := m => NameMatches(fullName, className, methodName, m);
      var r := WhereMinByIndex(ms, p, MethodNameLength);
      if r.Some? {
        var k := r.value;
        forall j | 0 <= j < |ms| && Contains(ms[j].name, methodName)
          ensures MethodNameLength(ms[k]) <= MethodNameLength(ms[j])
        {
          assert p(ms[j]);
        }
        forall j | 0 <= j < k && Contains(ms[j].name, methodName)
          ensures MethodNameLength(ms[k]) < MethodNameLength(ms[j])
        {
          assert p(ms[j]);
        }
      } else if Contains(LastSegment(fullName), className) {
        forall j | 0 <= j < |ms|
          ensures !Contains(ms[j].name, methodName)
        {
          assert !p(ms[j]);
        }
      }
    }
  }

  /** The candidate of the first type, in order, that yields one; None when no type does. */
  function ResolveByName(types: seq<TypeRef>, className: string, methodName: string): Option<MethodRef> {
    FirstSome(types, t => TypeCandidate(t, className, methodName))
  }

  /**
   * The name path yields the candidate of the first type, in order, that has
   * one, skipping every type whose method listing throws, and yields nothing
   * exactly when no type has a candidate.
   */
  lemma ResolveByNameIsFirst(types: seq<TypeRef>, className: string, methodName: string)
    ensures var r := ResolveByName(types, className, methodName);
            r.None? <==> forall i :: 0 <= i < |types| ==> TypeCandidate(types[i], className, methodName).None?
    ensures var r := ResolveByName(types, className, methodName);
            r.Some? ==> exists i :: 0 <= i < |types| && r == TypeCandidate(types[i], className, methodName) &&
                          forall j :: 0 <= j < i ==> TypeCandidate(types[j], className, methodName).None?
  {
    FirstSomeIsFirst(types, t => TypeCandidate(t, className, methodName));
  }

  /**
   * The first type that yields any match fixes the result: the types after it
   * are never consulted, even one with a tighter match.
   */
  lemma LaterTypesIgnored(types: seq<TypeRef>, more: seq<TypeRef>, className: string, methodName: string, i: nat)
    requires i < |types| && TypeCandidate(types[i], className, methodName).Some?
    ensures ResolveByName(types + more, className, methodName) == ResolveByName(types, className, methodName)
  {
    FirstSomeIgnoresRest(types, more, t => TypeCandidate(t, className, methodName), i);
  }

  /**
   * A query without `.` has the empty class fragment, so the class filter
   * passes every type that has a full name and the whole query is the method
   * fragment.
   */
  lemma SingleSegmentQuery(query: string, fullName: string)
    requires '.' !in query
    ensures ClassFragment(query) == "" && LastSegment(query) == query
    ensures Contains(LastSegment(fullName), ClassFragment(query))
  {
    SplitWithoutSeparator(query, '.');
    ContainsEmpty(LastSegment(fullName));
  }

  // ---------------------------------------------------------------------------
  // The whole resolver
  // ---------------------------------------------------------------------------

  /**
   * What `ResolveMethod(assembly, methodArgumentValue)` returns: null for a
   * null argument; the token path when the argument parses as an Int32; the
   * name path otherwise.
   */
  function ResolvedMethod(assembly: Assembly, query: Option<string>): Option<MethodRef> {
    match query
    case None => None
    case Some(q) =>
      match ParseInt32(q)
      case Some(token) => ResolveByToken(assembly.modules, token)
      case None => ResolveByName(assembly.types, ClassFragment(q), LastSegment(q))
  }

  /**
   * `ResolveMethod(assembly, methodArgumentValue)`: the token loop over the
   * modules or the name loop over the types, each stopping at the first hit.
   */
  method ResolveMethod(assembly: Assembly, query: Option<string>) returns (resolved: Option<MethodRef>)
    ensures resolved == ResolvedMethod(assembly, query)
  {
    if query.None? {
      return None;
    }
    var argument := query.value;
    resolved := None;
    var parsed := ParseInt32(argument);
    if parsed.Some? {
      var token := parsed.value;
      var modules := assembly.modules;
      var i := 0;
      while i < |modules|
        invariant 0 <= i <= |modules|
        invariant resolved.None?
        invariant ResolveByToken(modules, token) == ResolveByToken(modules[i..], token)
      {
        var m := modules[i];
        assert ResolveByToken(modules[i..], token) ==
               if ResolveInModule(m, token).Some? then ResolveInModule(m, token) else ResolveByToken(modules[i + 1..], token) by {
          assert modules[i..][0] == m;
          assert modules[i..][1..] == modules[i + 1..];
        }
        if token in m.tokens {
          match m.tokens[token] {
            case Resolves(target) => resolved := Some(target);
            case ResolvesNull => resolved := None;
          }
          if resolved.Some? {
            break;
          }
        }
        // else: ResolveMethod throws for a token the module does not define; ignored
        i := i + 1;
      }
    } else {
      var types := assembly.types;
      var className := ClassFragment(argument);
      var methodName := LastSegment(argument);
      var i := 0;
      while i < |types|
        invariant 0 <= i <= |types|
        invariant resolved.None?
        invariant ResolveByName(types, className, methodName) == ResolveByName(types[i..], className, methodName)
      {
        var t := types[i];
        assert ResolveByName(types[i..], className, methodName) ==
               if TypeCandidate(t, className, methodName).Some? then TypeCandidate(t, className, methodName)
               else ResolveByName(types[i + 1..], className, methodName) by {
          assert types[i..][0] == t;
          assert types[i..][1..] == types[i + 1..];
        }
        match t.methods {
          case Throws =>
            // GetMethods threw; ignored
          case Listed(x) =>
            if t.fullName.Some? {
              var fullName := t.fullName.value;
              resolved := WhereMinBy(x, m => NameMatches(fullName, className, methodName, m), MethodNameLength);
            }
            // else: with no methods MinBy yields null; otherwise FullName.Split throws; ignored
        }
        if resolved.Some? {
          break;
        }
        i := i + 1;
      }
    }
  }
}
