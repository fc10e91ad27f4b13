/** Decoded class-file entities that the hull engine reads: field and method
    types, constant-pool entries and classes, and the class names each
    constant-pool entry hands to the engine, in the order it hands them. */
module ClassModel {

  datatype Option<+T> = None | Some(value: T)

  /** A decoded field or method type: a primitive (by its descriptor code), an
      object type carrying its class name, or an array of some element type. */
  datatype Type = Basic(code: char) | Object(className: string) | Array(element: Type)

  /** `t` wrapped in `dims` array levels. */
  function ArrayOf(t: Type, dims: nat): Type
  {
    if dims == 0 then t else Array(ArrayOf(t, dims - 1))
  }

  /** The number of array levels around the basic type. */
  function Dimensions(t: Type): nat
  {
    if t.Array? then 1 + Dimensions(t.element) else 0
  }

  /** ArrayType.getBasicType: the element type under all array levels; a
      non-array type is its own basic type. The result is never an array,
      and wrapping it back in the dimensions rebuilds the input. */
  function BasicType(t: Type): (b: Type)
    ensures !b.Array?
    ensures ArrayOf(b, Dimensions(t)) == t
  {
    if t.Array? then BasicType(t.element) else t
  }

  /** Unwrapping an array built from a basic type gives that basic type back,
      whatever the number of dimensions. */
  lemma {:induction false} BasicTypeOfArrayOf(b: Type, dims: nat)
    requires !b.Array?
    ensures BasicType(ArrayOf(b, dims)) == b
    ensures Dimensions(ArrayOf(b, dims)) == dims
  {
    if dims > 0 {
      BasicTypeOfArrayOf(b, dims - 1);
    }
  }

  /** The class name a type contributes when checked: the class of its basic
      type if that is an object type, nothing otherwise. */
  function ReferencedClass(t: Type): Option<string>
  {
    match BasicType(t)
    case Object(n) => Some(n)
    case _ => None
  }

  /** A type with `dims` array levels over basic type `b` refers to b's class
      exactly when b is an object type: `String[][]` refers to String once,
      `int[]` and `int` refer to nothing. */
  lemma ReferencedClassOfArray(b: Type, dims: nat)
    requires !b.Array?
    ensures ReferencedClass(ArrayOf(b, dims)) == if b.Object? then Some(b.className) else None
  {
    BasicTypeOfArrayOf(b, dims);
  }

  /** The names a checked type passes on: zero or one. */
  function TypeReferences(t: Type): seq<string>
  {
    match ReferencedClass(t)
    case Some(n) => [n]
    case None => []
  }

  /** The names the argument types pass on, argument by argument in order. */
  function ArgumentReferences(ts: seq<Type>): seq<string>
  {
    if ts == [] then [] else ArgumentReferences(ts[..|ts| - 1]) + TypeReferences(ts[|ts| - 1])
  }

  /** A name is passed on by the argument list exactly when some argument
      type refers to that class; there are never more names than arguments. */
  lemma {:induction false} ArgumentReferencesMembers(ts: seq<Type>)
    ensures |ArgumentReferences(ts)| <= |ts|
    ensures forall n :: n in ArgumentReferences(ts) <==>
              exists i :: 0 <= i < |ts| && ReferencedClass(ts[i]) == Some(n)
  {
    if ts != [] {
      var init := ts[..|ts| - 1];
      ArgumentReferencesMembers(init);
      forall n
        ensures n in ArgumentReferences(ts) <==>
                exists i :: 0 <= i < |ts| && ReferencedClass(ts[i]) == Some(n)
      {
        if n in ArgumentReferences(init) {
          var i :| 0 <= i < |init| && ReferencedClass(init[i]) == Some(n);
          assert ts[i] == init[i];
        }
        if exists i :: 0 <= i < |ts| && ReferencedClass(ts[i]) == Some(n) {
          var i :| 0 <= i < |ts| && ReferencedClass(ts[i]) == Some(n);
          if i < |init| {
            assert init[i] == ts[i];
          }
        }
      }
    }
  }

  /** A decoded constant-pool entry. The three reference kinds carry their
      owner class and the types decoded from their descriptor. */
  datatype Constant =
    | ClassRef(name: string)
    | MethodRef(owner: string, returnType: Type, argumentTypes: seq<Type>)
    | InterfaceMethodRef(owner: string, returnType: Type, argumentTypes: seq<Type>)
    | FieldRef(owner: string, fieldType: Type)
    | Other

  predicate IsRef(c: Constant)
  {
    c.MethodRef? || c.InterfaceMethodRef? || c.FieldRef?
  }

  /** The types a reference entry's descriptor mentions: return type then
      argument types for a method, the field type for a field. */
  function DescriptorTypes(c: Constant): seq<Type>
    requires IsRef(c)
  {
    if c.FieldRef? then [c.fieldType] else [c.returnType] + c.argumentTypes
  }

  /** A class as the repository hands it out: its name and its decoded
      constant pool. */
  datatype JavaClass = JavaClass(name: string, pool: seq<Constant>)

  /** The class names one entry passes to `add`, in call order: a class
      constant its name; a method or interface-method reference its owner,
      then its return type, then each argument type; a field reference its
      owner, then its field type; any other entry nothing. */
  function References(c: Constant): seq<string>
  {
    match c
    case ClassRef(n) => [n]
    case MethodRef(o, r, args) => [o] + TypeReferences(r) + ArgumentReferences(args)
    case InterfaceMethodRef(o, r, args) => [o] + TypeReferences(r) + ArgumentReferences(args)
    case FieldRef(o, t) => [o] + TypeReferences(t)
    case Other => []
  }

  /** A reference entry passes its owner first, and passes exactly the owner
      and the classes its descriptor types refer to. */
  lemma ReferencesOfRef(c: Constant)
    requires IsRef(c)
    ensures |References(c)| >= 1 && References(c)[0] == c.owner
    ensures |References(c)| <= 1 + |DescriptorTypes(c)|
    ensures forall n :: n in References(c) <==>
              n == c.owner || exists t :: t in DescriptorTypes(c) && ReferencedClass(t) == Some(n)
  {
    if !c.FieldRef? {
      var ts := DescriptorTypes(c);
      ArgumentReferencesMembers(c.argumentTypes);
      forall n
        ensures n in References(c) <==>
                n == c.owner || exists t :: t in ts && ReferencedClass(t) == Some(n)
      {
        if exists t :: t in ts && ReferencedClass(t) == Some(n) {
          var t :| t in ts && ReferencedClass(t) == Some(n);
          if t != c.returnType {
            var i :| 0 <= i < |c.argumentTypes| && c.argumentTypes[i] == t;
          }
        }
        if n in ArgumentReferences(c.argumentTypes) {
          var i :| 0 <= i < |c.argumentTypes| && ReferencedClass(c.argumentTypes[i]) == Some(n);
          assert c.argumentTypes[i] in ts;
        }
      }
    }
  }

  /** The names the whole constant pool passes on, entry by entry in pool
      order. */
  function PoolReferences(pool: seq<Constant>): seq<string>
  {
    if pool == [] then [] else PoolReferences(pool[..|pool| - 1]) + References(pool[|pool| - 1])
  }

  /** Every name an entry passes on comes out of the pool. */
  lemma {:induction false} PoolReferencesComplete(pool: seq<Constant>, i: nat, n: string)
    requires i < |pool| && n in References(pool[i])
    ensures n in PoolReferences(pool)
  {
    var init := pool[..|pool| - 1];
    if i < |init| {
      assert init[i] == pool[i];
      PoolReferencesComplete(init, i, n);
    }
  }

  /** Every name that comes out of the pool was passed on by some entry. */
  lemma {:induction false} PoolReferencesSound(pool: seq<Constant>, n: string)
    requires n in PoolReferences(pool)
    ensures exists i :: 0 <= i < |pool| && n in References(pool[i])
  {
    var init := pool[..|pool| - 1];
    if n in PoolReferences(init) {
      PoolReferencesSound(init, n);
      var i :| 0 <= i < |init| && n in References(init[i]);
      assert pool[i] == init[i];
    } else {
      assert n in References(pool[|pool| - 1]);
    }
  }
}
