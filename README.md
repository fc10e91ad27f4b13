# Transitive hull of class references

This project models BCEL's `TransitiveHull` example. Starting from one class,
the engine finds every class reachable through constant-pool references. It
drains a FIFO queue of classes. For each dequeued class it walks the constant
pool:

- a class constant passes its name to `add`;
- a method or interface-method reference passes its owner, then checks its
  return type and each argument type in order;
- a field reference passes its owner, then checks its field type.

Checking a type unwraps an array type to its basic type and passes the class
of an object type. `add` then does four things in order:

1. rewrites `/` to `.`;
2. runs the exclusion patterns in list order, where a pattern that fails to
   compile or that matches drops the name;
3. looks the name up in the repository;
4. inserts the class found into the class set, keyed by that class's name,
   and enqueues it only if the name was new.

The project has four modules:

- `ClassModel` holds decoded types, constant-pool entries and classes. It
  also gives the sequence of names each entry hands to `add`, in call order.
- `Exclusion` holds the default pattern list `Ignored` (the `IGNORED` array),
  name normalisation and the ordered exclusion scan. The regular-expression
  engine is a value with two uninterpreted functions: `compiles` and
  `matches`.
- `HullSpec` is the pure specification:
  - `AddSpec` is the effect of one `add` on the state (set, queue, and a log
    of the order in which classes entered the set);
  - `AddAll` is the effect of a sequence of calls;
  - `Inv` is the traversal invariant;
  - `Closed` is the closure property reached at the end.
  - `ReachedFrom` is the reachability property: every class that entered
    the set was let in by a name from the pool of a class that entered before it.
- `Traversal` holds the class `TransitiveHull`. Its fields are updated in
  place, and each of its methods is proved against the `HullSpec` functions.

`start` terminates because the repository is a finite map. The loop's measure
is the pair (repository class names not yet in the set, queue length),
compared lexicographically.

## Model

| member | source | states |
|---|---|---|
| ClassModel.BasicType | examples/TransitiveHull.java:102-103 | The basic type of a type is never an array. Wrapping it back in the type's array dimensions rebuilds the input. |
| ClassModel.BasicTypeOfArrayOf | examples/TransitiveHull.java:102-103 | Unwrapping any number of array levels around a non-array type gives that type back, with exactly that many dimensions. |
| ClassModel.ReferencedClassOfArray | examples/TransitiveHull.java:101-109 | An array of any depth, or a plain type, refers to the class of its basic type when that type is an object type. Otherwise (primitives and primitive arrays) it refers to nothing. |
| ClassModel.ArgumentReferencesMembers | examples/TransitiveHull.java:125-129 | Checking the argument types passes on at most one name per argument. A name is passed on exactly when some argument type refers to that class. |
| ClassModel.ReferencesOfRef | examples/TransitiveHull.java:111-133 | A reference entry passes its owner first and at most one name per descriptor type. It passes exactly the owner plus the classes its descriptor types refer to. |
| ClassModel.PoolReferencesComplete | examples/TransitiveHull.java:69 | Every name any constant-pool entry passes on is among the names the pool walk hands to `add`. |
| ClassModel.PoolReferencesSound | examples/TransitiveHull.java:69 | Every name the pool walk hands to `add` comes from some entry of the pool. |
| Exclusion.Normalize | examples/TransitiveHull.java:74 | The length is kept. Each `/` becomes `.` and every other character is kept in place. |
| Exclusion.NormalizeIdempotent | examples/TransitiveHull.java:74 | A normalised name has no `/`. Normalising is the identity exactly on names without `/`, so normalising twice equals normalising once. |
| Exclusion.FilterFrom | examples/TransitiveHull.java:76-87 | The scan keeps the name exactly when no remaining pattern fails to compile or matches. Otherwise the verdict names the first such pattern in list order. The verdict is a syntax error exactly when that pattern does not compile. |
| Exclusion.ExcludedIff | examples/TransitiveHull.java:76-87 | A name is dropped exactly when some pattern fails to compile or matches it. |
| Exclusion.ScanIgnored | examples/TransitiveHull.java:76-87 | The loop with early returns yields the verdict of the ordered scan. |
| HullSpec.AddEffect | examples/TransitiveHull.java:73-94 | `add` changes the state exactly when three things hold: no pattern fails or matches the normalised name, the repository knows that name, and the found class's name is not yet in the set. It then adds exactly that name to the set and appends exactly that class to the queue. Otherwise set and queue are unchanged. |
| HullSpec.AddAllAppend | examples/TransitiveHull.java:111-133 | Calling `add` on two name sequences one after the other is the same as calling it on their concatenation. |
| HullSpec.AddAllGrowth | examples/TransitiveHull.java:89-93 | Over any sequence of `add` calls the set only grows, and only by names of repository classes. The queue and the entry log are only appended to, both with the same classes. The set is unchanged exactly when nothing was appended. |
| HullSpec.NameSetHas | examples/TransitiveHull.java:91 | Every logged class has its name in the set of logged names. |
| HullSpec.QueuedVisited | examples/TransitiveHull.java:46-49 | Under the invariant, the start class and every queued class have their names in the set. |
| HullSpec.InitialInv | examples/TransitiveHull.java:45-50 | The state right after construction satisfies the invariant: the start class is first in the log, the queue is the tail of the log, no name is logged twice, and the set is exactly the logged names. |
| HullSpec.DequeueInv | examples/TransitiveHull.java:65 | Dequeuing the head keeps the invariant. |
| HullSpec.AddSpecInv | examples/TransitiveHull.java:89-93 | One `add` keeps the invariant. In particular, no class name is ever enqueued twice. |
| HullSpec.AddAllInv | examples/TransitiveHull.java:89-93 | Any sequence of `add` calls keeps the invariant. |
| HullSpec.AddAllResolves | examples/TransitiveHull.java:73-94 | After `add` has been called on each name of a sequence, each of those names is resolved against the final set: it is excluded, unknown to the repository, or its class is in the set. |
| HullSpec.RoundGrowth | examples/TransitiveHull.java:63-71 | One loop iteration keeps the invariant and only grows the set and the log. The set grows only by names of repository classes. It moves exactly the dequeued class into the visited part of the log. It decreases the termination measure. |
| HullSpec.RoundHeadClosed | examples/TransitiveHull.java:64-69 | After its pool is visited, the dequeued class is closed against the resulting set. |
| HullSpec.ClosedFromStep | examples/TransitiveHull.java:63-71 | When set and log only grow and the newly visited class is closed, every class closed before stays closed. |
| HullSpec.ClosedCarried | examples/TransitiveHull.java:63-71 | A closed class of the log stays closed in any extension of the log, against any larger set. |
| HullSpec.ClosedMonotone | examples/TransitiveHull.java:89-93 | Closure of a class is kept when the set grows. |
| HullSpec.AddAllAdmits | examples/TransitiveHull.java:73-94 | Every class that a sequence of `add` calls appends to the queue and the log was let in by one of the names: that name, normalised, passes the exclusion scan and the repository returns the class for it. |
| HullSpec.RoundAdmits | examples/TransitiveHull.java:64-69 | Every class a loop iteration appends was let in by a name that the dequeued class's constant pool passes on. |
| HullSpec.ReachedStep | examples/TransitiveHull.java:63-71 | When the log only grows and every appended class was let in by a name from the pool of a class logged before it, every class logged from a given position on still has such a predecessor. |
| HullSpec.RemainingShrinks | examples/TransitiveHull.java:63-71 | If the set grew by repository names, fewer repository names are left outside it. |
| Traversal.TransitiveHull.constructor | examples/TransitiveHull.java:45-50 | The set is exactly the start class's name and the queue is exactly the start class. The start class is neither filtered nor looked up. The invariant holds, the repository and regex engine are the ones passed in, and the exclusion list is the default `IGNORED` list. |
| Traversal.TransitiveHull.GetIgnored | examples/TransitiveHull.java:147-149 | Returns the current exclusion list. |
| Traversal.TransitiveHull.SetIgnored | examples/TransitiveHull.java:155-157 | Replaces the whole exclusion list and changes nothing else. |
| Traversal.TransitiveHull.SetAdd | examples/TransitiveHull.java:91 | Inserts a class under its name. It returns true exactly when the name was new, and it logs the class only then. |
| Traversal.TransitiveHull.Add | examples/TransitiveHull.java:73-94 | The new state is `AddSpec` of the old one. |
| Traversal.TransitiveHull.VisitConstantClass | examples/TransitiveHull.java:96-99 | The new state is the effect of calling `add` on the class constant's name. |
| Traversal.TransitiveHull.CheckType | examples/TransitiveHull.java:101-109 | The new state is the effect of calling `add` on the names the type refers to: one name for an object type or an array of one, none otherwise. |
| Traversal.TransitiveHull.VisitRef | examples/TransitiveHull.java:111-133 | The new state is the effect of calling `add` in this order: the owner, then the return type's class, then each argument type's class (for a method), or the field type's class (for a field). |
| Traversal.TransitiveHull.VisitConstantMethodref | examples/TransitiveHull.java:135-137 | Same as `VisitRef` for a method reference. |
| Traversal.TransitiveHull.VisitConstantInterfaceMethodref | examples/TransitiveHull.java:139-141 | Same as `VisitRef` for an interface-method reference. |
| Traversal.TransitiveHull.VisitConstantFieldref | examples/TransitiveHull.java:143-145 | Same as `VisitRef` for a field reference. |
| Traversal.TransitiveHull.Accept | examples/TransitiveHull.java:69 | Dispatch of one constant to its callback. Other kinds of entry change nothing. |
| Traversal.TransitiveHull.VisitConstantPool | examples/TransitiveHull.java:69 | Walking the current pool entry by entry has the effect of calling `add` on all of its names in pool order. |
| Traversal.TransitiveHull.VisitNext | examples/TransitiveHull.java:65-69 | Dequeues the head, makes it the current class and its pool the current pool, and visits the pool. The new state is one `Round` of the old one. |
| Traversal.TransitiveHull.Start | examples/TransitiveHull.java:63-71 | The loop terminates with an empty queue. The invariant holds, and the set and the log have only grown. The result is the hull in both directions. Closure: every class that was waiting or was enqueued during the run is closed, meaning each name its constant pool passes on is excluded, unknown to the repository, or in the set. Reachability: the set gained only names of repository classes, and every class logged during the run was let in by a non-excluded name that the pool of a class logged before it passes on. |

The default pattern list `Exclusion.Ignored` is the constant at
examples/TransitiveHull.java:33-43. The constructor's postcondition pins the
initial exclusion list to it (examples/TransitiveHull.java:31).

## Left out

- `main` (command line, class-file parsing of the argument, printing, stack traces) is I/O glue.
- BCEL's class-file parsing and the `DescendingVisitor` walk are foreign code. A class is given with its constant pool already decoded. The walk is modelled only as the loop over the pool entries (`Accept`, `VisitConstantPool`), since every other callback of `EmptyVisitor` does nothing.
- Descriptor parsing (`Type.getType`, `Type.getReturnType`, `Type.getArgumentTypes`) is foreign code. Types come decoded in the reference entries, so malformed-descriptor exceptions are not modelled.
- The regular-expression library is foreign code. `compiles` and `matches` are uninterpreted, and nothing is assumed about anchoring. The code calls `RE.match`, which is not a whole-string match, so the model follows the code rather than a whole-string reading. Patterns are compiled afresh on every call, as in the code, not validated once up front.
- The printing of the syntax-error exception is I/O. Only its effect is kept: the `SyntaxError` verdict, under which the name is dropped.
- `Repository.lookupClass` is a global classpath lookup. It is a given finite map from names to classes, so a lookup miss is a name outside the map.
- `ClassSet` and `ClassQueue` are not part of this model. The set is membership keyed by class name, and the queue is a FIFO sequence.
- `getClasses` and `getClassNames` are left out, because their enumeration order depends on `ClassSet`, which is not part of this model.
- Traversal.TransitiveHull.SetIgnored: the array passed in is a value sequence, so aliasing with a caller who later mutates that array is not modelled.
- Traversal.TransitiveHull.GetIgnored: returns the list as a value. In the original it returns the live array, so a caller who writes into it changes the patterns later `add` calls use. That is not modelled.
- Exclusion.Ignored: the default list is an immutable constant. In the original, `IGNORED` is one public mutable static array shared by every hull whose list was not replaced. A write into it, through the field or through `getIgnored`, would change all of those hulls, and that is not modelled.
- Traversal.TransitiveHull.Add: a `null` pattern list or a `null` pattern makes the original throw a `NullPointerException`, which the syntax-error handler does not catch. A `seq<string>` has no null, so that failure is not modelled.
- Traversal.TransitiveHull.Start: closure is stated against the exclusion list and repository in effect during the run. A change to the list made after the run is outside the statement.
