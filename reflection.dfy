/**
 * The slice of .NET reflection the resolvers see, as plain data: an assembly
 * is its location, its types in `GetTypes()` order and its modules in
 * `GetModules()` order.
 */
module Reflection {
  import opened Wrappers

  /** A `MethodBase`: its `Name` and its metadata token. */
  datatype MethodRef = MethodRef(name: string, token: int)

  /** What `type.GetMethods(allBindingFlags)` does: list the methods, or throw. */
  datatype Methods = Listed(methods: seq<MethodRef>) | Throws

  /** A `Type`: `FullName` may be null (generic parameters, some constructed types); `Name` never is. */
  datatype TypeRef = TypeRef(fullName: Option<string>, name: string, methods: Methods)

  /**
   * What `module.ResolveMethod(token)` returns for a token it accepts: a
   * method, or null. A token absent from `tokens` makes it throw.
   */
  datatype TokenTarget = Resolves(target: MethodRef) | ResolvesNull

  datatype ModuleRef = ModuleRef(tokens: map<int, TokenTarget>)

  datatype Assembly = Assembly(location: string, types: seq<TypeRef>, modules: seq<ModuleRef>)

  /** `t.FullName ?? t.Name`, the text the type resolver searches and measures. */
  function DisplayName(t: TypeRef): string {
    t.fullName.GetOr(t.name)
  }
}
