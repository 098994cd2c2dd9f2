/**
 Strategy resolution: picking the strategy class out of a loaded module.

 A module is seen only through the class members reflection lists for it, in
 the order reflection lists them (`inspect.getmembers` sorts them by name, so
 this is not declaration order). Each member carries the name of the module
 that defines it; a class imported from elsewhere, such as the strategy base
 class, carries that other module's name.
 */
module Resolver {
  import opened Base

  /** One class listed as a member of a module. */
  datatype ClassMember = ClassMember(name: string, definingModule: string)

  /** The class is defined in the module being searched, not imported into it. */
  predicate IsLocal(c: ClassMember, moduleName: string) {
    c.definingModule == moduleName
  }

  /** `members[i]` is local and no member listed before it is. */
  predicate IsFirstLocalAt(members: seq<ClassMember>, moduleName: string, i: int) {
    && 0 <= i < |members|
    && IsLocal(members[i], moduleName)
    && forall j :: 0 <= j < i ==> !IsLocal(members[j], moduleName)
  }

  /**
   The strategy class of a module: the first listed member whose defining
   module is the module itself, or nothing when every member is imported.
   */
  function FindStrategyClass(moduleName: string, members: seq<ClassMember>): (r: Option<ClassMember>)
    ensures r.None? <==> forall i :: 0 <= i < |members| ==> !IsLocal(members[i], moduleName)
    ensures r.Some? ==> r.value in members && IsLocal(r.value, moduleName)
  {
    if |members| == 0 then None
    else if IsLocal(members[0], moduleName) then Some(members[0])
    else
      var rest := FindStrategyClass(moduleName, members[1..]);
      assert forall i :: 1 <= i < |members| ==> members[i] == members[1..][i - 1];
      rest
  }

  /** The class found is the first local one in listing order, so no earlier member is skipped. */
  lemma {:induction false} FindStrategyClassIsFirst(moduleName: string, members: seq<ClassMember>)
    ensures FindStrategyClass(moduleName, members).Some? ==>
      exists i :: IsFirstLocalAt(members, moduleName, i) && members[i] == FindStrategyClass(moduleName, members).value
  {
    if |members| > 0 && !IsLocal(members[0], moduleName) {
      var r := FindStrategyClass(moduleName, members[1..]);
      FindStrategyClassIsFirst(moduleName, members[1..]);
      if r.Some? {
        var i :| IsFirstLocalAt(members[1..], moduleName, i) && members[1..][i] == r.value;
        assert IsFirstLocalAt(members, moduleName, i + 1);
      }
    } else if |members| > 0 {
      assert IsFirstLocalAt(members, moduleName, 0);
    }
  }

  /**
   With exactly one class defined in the module, that class is the one
   resolved, wherever reflection lists it among the imported ones.
   */
  lemma {:induction false} SingleLocalClassIsResolved(moduleName: string, members: seq<ClassMember>, k: nat)
    requires k < |members| && IsLocal(members[k], moduleName)
    requires forall j :: 0 <= j < |members| && j != k ==> !IsLocal(members[j], moduleName)
    ensures FindStrategyClass(moduleName, members) == Some(members[k])
  {
    FindStrategyClassIsFirst(moduleName, members);
    var i :| IsFirstLocalAt(members, moduleName, i) && members[i] == FindStrategyClass(moduleName, members).value;
    assert i == k;
  }

  /** Imported classes listed after the strategy class do not change what is resolved. */
  lemma {:induction false} LaterMembersDoNotMatter(moduleName: string, members: seq<ClassMember>, more: seq<ClassMember>)
    requires FindStrategyClass(moduleName, members).Some?
    ensures FindStrategyClass(moduleName, members + more) == FindStrategyClass(moduleName, members)
  {
    if !IsLocal(members[0], moduleName) {
      assert (members + more)[1..] == members[1..] + more;
      LaterMembersDoNotMatter(moduleName, members[1..], more);
    }
  }
}
