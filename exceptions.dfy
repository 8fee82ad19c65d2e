/** The service-layer exception hierarchy of apps/common/exceptions.py, together
    with the library exception classes that the core raises or catches. A raised
    exception is represented by its class; message texts are not modelled. */
module Exceptions {
  import opened Common

  datatype ExcClass =
    | Exception                   // Python's root of ordinary exceptions
    | ServiceException
    | PermissionDeniedException
    | InvalidStateException
    | DuplicateActionException
    | ValidationException
    | DjangoPermissionDenied      // django.core.exceptions.PermissionDenied
    | DjangoValidationError       // django.core.exceptions.ValidationError
    | ValueError
    | IntegrityError              // django.db.IntegrityError
    | DoesNotExist                // Model.DoesNotExist

  /** Distance from the root class. */
  function Depth(c: ExcClass): nat
  {
    match c
    case Exception => 0
    case PermissionDeniedException | InvalidStateException
       | DuplicateActionException | ValidationException => 2
    case _ => 1
  }

  /** The base class named in each `class X(Base)` declaration of the
      service hierarchy. The library classes are placed directly under
      `Exception`: the real parents of IntegrityError (DatabaseError) and of
      a model's DoesNotExist (ObjectDoesNotExist) are not modelled, which
      changes no clause the views have, since none of them names those
      intermediate classes. */
  function Parent(c: ExcClass): (p: Option<ExcClass>)
    ensures p.None? <==> Depth(c) == 0
    ensures p.Some? ==> Depth(p.value) + 1 == Depth(c)
  {
    match c
    case Exception => None
    case PermissionDeniedException | InvalidStateException
       | DuplicateActionException | ValidationException => Some(ServiceException)
    case _ => Some(Exception)
  }

  /** The method resolution order: the class itself, then its ancestors. */
  function Mro(c: ExcClass): (m: seq<ExcClass>)
    decreases Depth(c)
    ensures |m| == Depth(c) + 1
    ensures m[0] == c && m[|m| - 1] == Exception
  {
    match Parent(c)
    case None => [c]
    case Some(p) => [c] + Mro(p)
  }

  /** Python's `issubclass(c, d)`. */
  predicate IsSubclass(c: ExcClass, d: ExcClass)
  {
    d in Mro(c)
  }

  /** Every ancestor of an ancestor is an ancestor. */
  lemma {:induction false} SubclassTransitive(c: ExcClass, d: ExcClass, e: ExcClass)
    requires IsSubclass(c, d) && IsSubclass(d, e)
    ensures IsSubclass(c, e)
    decreases Depth(c)
  {
    if c != d {
      var p := Parent(c).value;
      assert Mro(c) == [c] + Mro(p);
      SubclassTransitive(p, d, e);
    }
  }

  /** The four specific service exceptions are ServiceExceptions, and no two of
      them are related by subclassing. */
  lemma ServiceHierarchy(c: ExcClass, d: ExcClass)
    requires Depth(c) == 2 && Depth(d) == 2
    ensures IsSubclass(c, ServiceException)
    ensures IsSubclass(c, d) <==> c == d
  {
  }

  /** The exceptions Django and Python raise are not ServiceExceptions, so a
      handler for ServiceException does not catch them. */
  lemma LibraryExceptionsAreNotServiceExceptions(c: ExcClass)
    requires Depth(c) == 1 && c != ServiceException
    ensures !IsSubclass(c, ServiceException)
    ensures IsSubclass(c, Exception)
  {
  }

  /** The `except` clause of a `try` statement that handles an exception of class
      `c`: the first clause whose class is `c` or an ancestor of it. */
  function HandlingClause(c: ExcClass, clauses: seq<ExcClass>): (r: Option<nat>)
    ensures r.Some? ==> r.value < |clauses| && IsSubclass(c, clauses[r.value])
    ensures r.Some? ==> forall j :: 0 <= j < r.value ==> !IsSubclass(c, clauses[j])
    ensures r.None? ==> forall j :: 0 <= j < |clauses| ==> !IsSubclass(c, clauses[j])
  {
    if clauses == [] then None
    else if IsSubclass(c, clauses[0]) then Some(0)
    else match HandlingClause(c, clauses[1..])
      case None => None
      case Some(k) => Some(k + 1)
  }

  /** The clause that handles `c` is the one it first matches. */
  lemma FirstMatch(c: ExcClass, clauses: seq<ExcClass>, k: nat)
    requires k < |clauses| && IsSubclass(c, clauses[k])
    requires forall j :: 0 <= j < k ==> !IsSubclass(c, clauses[j])
    ensures HandlingClause(c, clauses) == Some(k)
  {
  }
}
