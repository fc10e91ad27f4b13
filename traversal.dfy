/** The hull engine itself: an object whose class set, queue, exclusion list
    and current class change in place as it visits constant pools. Each
    method is proved against the functions of module HullSpec. */
module Traversal {
  import opened ClassModel
  import opened Exclusion
  import opened HullSpec

  class TransitiveHull {
    /** The repository consulted by `add` (a global registry in the original). */
    const repo: Repository
    /** The regular-expression engine the exclusion scan calls. */
    const engine: RegexEngine
    /** The class the traversal started from. */
    ghost const start: JavaClass

    var ignored: seq<string>
    var queue: seq<JavaClass>
    /** The class set, keyed by class name. */
    var visited: set<string>
    /** The class being visited and its constant pool. */
    var currentClass: Option<JavaClass>
    var cp: seq<Constant>
    /** The classes in the order they entered the class set. */
    ghost var order: seq<JavaClass>

    ghost function Settings(): Config
      reads this`ignored
    {
      Config(repo, engine, ignored)
    }

    ghost function State(): Hull
      reads this`visited, this`queue, this`order
    {
      Hull(visited, queue, order)
    }

    ghost predicate Valid()
      reads this`visited, this`queue, this`order
    {
      Inv(State(), start)
    }

    /** The set and the queue both start with the given class alone; that
        class is neither filtered nor looked up. */
    constructor (clazz: JavaClass, repo: Repository, engine: RegexEngine)
      ensures Valid() && start == clazz && this.repo == repo && this.engine == engine
      ensures queue == [clazz] && visited == {clazz.name} && order == [clazz]
      ensures ignored == Ignored && currentClass == None && cp == []
    {
      InitialInv(clazz);
      this.repo := repo;
      this.engine := engine;
      start := clazz;
      ignored := Ignored;
      currentClass := None;
      cp := [];
      queue := [clazz];
      visited := {clazz.name};
      order := [clazz];
    }

    method GetIgnored() returns (patterns: seq<string>)
      ensures patterns == ignored
    {
      patterns := ignored;
    }

    /** Replaces the whole exclusion list. */
    method SetIgnored(v: seq<string>)
      modifies this`ignored
      ensures ignored == v
    {
      ignored := v;
    }

    /** ClassSet.add: inserts `c` under its name and tells whether the name
        was new. */
    method SetAdd(c: JavaClass) returns (added: bool)
      modifies this`visited, this`order
      ensures added == (c.name !in old(visited))
      ensures visited == old(visited) + {c.name}
      ensures order == if added then old(order) + [c] else old(order)
    {
      added := c.name !in visited;
      if added {
        visited := visited + {c.name};
        order := order + [c];
      }
    }

    /** Normalise the name, drop it if the exclusion scan says so, look it
        up, and insert and enqueue the class found if its name is new. */
    method Add(className: string)
      modifies this`visited, this`queue, this`order
      ensures State() == AddSpec(old(State()), Settings(), className)
    {
      var name := Normalize(className);
      var verdict := ScanIgnored(engine, ignored, name);
      if !verdict.Keep? {
        return;
      }
      var clazz := Lookup(repo, name);
      if clazz.Some? {
        var added := SetAdd(clazz.value);
        if added {
          queue := queue + [clazz.value];
        }
      }
    }

    method VisitConstantClass(cc: Constant)
      requires cc.ClassRef?
      modifies this`visited, this`queue, this`order
      ensures State() == AddAll(old(State()), Settings(), References(cc))
    {
      Add(cc.name);
      AddAllOne(old(State()), Settings(), cc.name);
    }

    /** Unwrap an array type to its basic type and add the class of an
        object type; primitive types add nothing. */
    method CheckType(t: Type)
      modifies this`visited, this`queue, this`order
      ensures State() == AddAll(old(State()), Settings(), TypeReferences(t))
    {
      var ty := t;
      if ty.Array? {
        ty := BasicType(ty);
      }
      if ty.Object? {
        Add(ty.className);
        AddAllOne(old(State()), Settings(), ty.className);
      }
    }

    /** Add the owner class, then check the return type and each argument
        type in order for a method, or the field type for a field. */
    method VisitRef(ccp: Constant, isMethod: bool)
      requires IsRef(ccp) && isMethod == !ccp.FieldRef?
      modifies this`visited, this`queue, this`order
      ensures State() == AddAll(old(State()), Settings(), References(ccp))
    {
      ghost var h0 := State();
      Add(ccp.owner);
      AddAllOne(h0, Settings(), ccp.owner);
      if isMethod {
        CheckType(ccp.returnType);
        AddAllAppend(h0, Settings(), [ccp.owner], TypeReferences(ccp.returnType));
        ghost var prefix := [ccp.owner] + TypeReferences(ccp.returnType);
        var types := ccp.argumentTypes;
        for i := 0 to |types|
          invariant State() == AddAll(h0, Settings(), prefix + ArgumentReferences(types[..i]))
        {
          CheckType(types[i]);
          AddAllNextArgument(h0, Settings(), prefix, types, i);
        }
        assert types[..|types|] == types;
        assert References(ccp) == prefix + ArgumentReferences(types);
      } else {
        CheckType(ccp.fieldType);
        AddAllAppend(h0, Settings(), [ccp.owner], TypeReferences(ccp.fieldType));
      }
    }

    method VisitConstantMethodref(cmr: Constant)
      requires cmr.MethodRef?
      modifies this`visited, this`queue, this`order
      ensures State() == AddAll(old(State()), Settings(), References(cmr))
    {
      VisitRef(cmr, true);
    }

    method VisitConstantInterfaceMethodref(cimr: Constant)
      requires cimr.InterfaceMethodRef?
      modifies this`visited, this`queue, this`order
      ensures State() == AddAll(old(State()), Settings(), References(cimr))
    {
      VisitRef(cimr, true);
    }

    method VisitConstantFieldref(cfr: Constant)
      requires cfr.FieldRef?
      modifies this`visited, this`queue, this`order
      ensures State() == AddAll(old(State()), Settings(), References(cfr))
    {
      VisitRef(cfr, false);
    }

    /** Dispatch of one constant to its visit callback; every other kind of
        constant has a callback that does nothing. */
    method Accept(c: Constant)
      modifies this`visited, this`queue, this`order
      ensures State() == AddAll(old(State()), Settings(), References(c))
    {
      match c
      case ClassRef(_) => VisitConstantClass(c);
      case MethodRef(_, _, _) => VisitConstantMethodref(c);
      case InterfaceMethodRef(_, _, _) => VisitConstantInterfaceMethodref(c);
      case FieldRef(_, _) => VisitConstantFieldref(c);
      case Other =>
    }

    /** The walk over the current constant pool, entry by entry. */
    method VisitConstantPool()
      modifies this`visited, this`queue, this`order
      ensures State() == AddAll(old(State()), Settings(), PoolReferences(cp))
    {
      ghost var h0 := State();
      for i := 0 to |cp|
        invariant State() == AddAll(h0, Settings(), PoolReferences(cp[..i]))
      {
        Accept(cp[i]);
        AddAllNextConstant(h0, Settings(), cp, i);
      }
      assert cp[..|cp|] == cp;
    }

    /** One iteration of the traversal loop: dequeue the head class, make it
        the current class and visit its constant pool. */
    method VisitNext()
      requires queue != []
      modifies this`visited, this`queue, this`order, this`currentClass, this`cp
      ensures State() == Round(old(State()), Settings())
      ensures currentClass == Some(old(queue[0])) && cp == old(queue[0]).pool
    {
      var clazz := queue[0];
      queue := queue[1..];
      currentClass := Some(clazz);
      cp := clazz.pool;
      VisitConstantPool();
    }

    /** Dequeue and visit classes until the queue is empty. Afterwards the
        invariant still holds, the set has only grown, and every class that
        was waiting or was enqueued during the run is closed: each name its
        constant pool passes on is excluded, unknown to the repository, or
        in the set. */
    method Start()
      requires Valid()
      modifies this`visited, this`queue, this`order, this`currentClass, this`cp
      ensures Valid() && queue == []
      ensures old(visited) <= visited && visited - old(visited) <= RepoNames(repo)
      ensures old(order) <= order
      ensures forall i :: |old(order)| - |old(queue)| <= i < |order| ==> Closed(order[i], visited, Settings())
      ensures ReachedFrom(order, Settings(), |old(order)|)
    {
      ghost var first: nat := |order| - |queue|;
      while queue != []
        invariant Valid()
        invariant old(visited) <= visited && visited - old(visited) <= RepoNames(repo)
        invariant old(order) <= order
        invariant ReachedFrom(order, Settings(), |old(order)|)
        invariant first <= |order| - |queue|
        invariant ClosedFrom(State(), Settings(), first)
        decreases |RepoNames(repo) - visited|, |queue|
      {
        ghost var h := State();
        RoundGrowth(h, Settings(), start);
        RoundHeadClosed(h, Settings());
        RoundAdmits(h, Settings());
        VisitNext();
        ClosedFromStep(h, State(), Settings(), first);
        ReachedStep(h, State(), Settings(), |old(order)|);
      }
    }
  }
}
