/** The exceptions of the core, optional values, and `BaseEntity`'s identity-based
    equality and hashing (metadata/core/domain/common.py). */
module Common {

  datatype Option<T> = None | Some(value: T)

  /** The elements of a list, as a set. */
  ghost function Members<T>(s: seq<T>): set<T>
  {
    set x | x in s
  }

  /** The first `i + 1` elements of a list are the first `i` and one more. */
  lemma MembersNext<T>(s: seq<T>, i: nat)
    requires i < |s|
    ensures Members(s[..i + 1]) == Members(s[..i]) + {s[i]}
  {
    assert s[..i + 1] == s[..i] + [s[i]];
  }

  /** A reading of `datetime.utcnow()`; the clock itself is a parameter of every member that needs it. */
  type Timestamp = int

  /** Why an `EntityError` was raised. */
  datatype Reason =
    | MissingAppId
    | AppIdNotLowercase
    | InvalidSchemaName
    | InvalidParameterName
    | EventNameLooksLikeContext
    | ContextNameNotWrapped
    | DuplicateParameter
    | UnknownParameter
    | UnexpectedVersion
    | MissingCustomPrefix
    | DuplicateDatasource
    | AtomicNameCollision
    | DuplicateApp
    | InvalidTimezone
    | CommitRefused          // a database constraint refused the commit

  /** The exceptions the core raises or lets through to its caller. */
  datatype Error =
    | EntityError(reason: Reason)
    | EntityNotFound
    | InternalError
    | NoResultFound          // the ORM's `.one()` on an empty result, passed through untranslated
    | MultipleResultsFound   // the ORM's `.one()` on more than one row
    | IntegrityError         // a constraint refused a commit, passed through untranslated
    | ValueError             // hashing an entity that has no identity
    | AttributeError         // `.fields` read on None
    | CollaboratorFailure    // a warehouse, registry or IAM call raised

  datatype Result<T> = Ok(value: T) | Err(error: Error)

  datatype Outcome = Pass | Fail(error: Error)

  /** One component of an identity tuple; `KNone` is a Python None inside the tuple. */
  datatype Key = KNone | KInt(i: int) | KStr(s: string)

  /** What `BaseEntity.__eq__` looks at: the concrete class of the entity and what its
      `_identity()` returns (None, or a tuple of keys). */
  datatype EntityRef = EntityRef(kind: string, identity: Option<seq<Key>>)

  /** Python truthiness of `_identity()`: None and the empty tuple are false. */
  predicate Truthy(identity: Option<seq<Key>>)
  {
    identity.Some? && |identity.value| > 0
  }

  /** `BaseEntity.__eq__`. The right operand's test reads `other._identity` without calling it:
      a bound method, which is always truthy. */
  function Equals(self: EntityRef, other: EntityRef): bool
  {
    if self.kind == other.kind && Truthy(self.identity) then self.identity == other.identity
    else false
  }

  /** `BaseEntity.__hash__`, with Python's tuple hash as the parameter `hash`. */
  function Hash(e: EntityRef, hash: seq<Key> -> int): (r: Result<int>)
    ensures r.Err? <==> !Truthy(e.identity)
    ensures r.Err? ==> r.error == ValueError
  {
    if !Truthy(e.identity) then Err(ValueError) else Ok(hash(e.identity.value))
  }

  /** Entities of different concrete classes are never equal. */
  lemma DifferentKindsNeverEqual(a: EntityRef, b: EntityRef)
    requires a.kind != b.kind
    ensures !Equals(a, b) && !Equals(b, a)
  {
  }

  /** Among entities with a truthy identity, equality is exactly equality of kind and identity tuple;
      it is symmetric and transitive, and reflexive only where the identity is truthy. */
  lemma EqualsIsPartialEquivalence(a: EntityRef, b: EntityRef, c: EntityRef)
    ensures Truthy(a.identity) ==> (Equals(a, b) <==> a.kind == b.kind && a.identity == b.identity)
    ensures Equals(a, b) ==> Equals(b, a)
    ensures Equals(a, b) && Equals(b, c) ==> Equals(a, c)
    ensures Equals(a, a) <==> Truthy(a.identity)
  {
  }

  /** An entity whose identity is None or empty is unequal to everything, itself included; testing only
      the left operand loses nothing, since equal identities share their truthiness. */
  lemma FalsyIdentityEqualsNothing(a: EntityRef, b: EntityRef)
    requires !Truthy(a.identity)
    ensures !Equals(a, b) && !Equals(b, a)
  {
  }

  /** `(None,)` is a truthy tuple: two unsaved entities of one class compare equal. */
  lemma UnsavedEntitiesCompareEqual(kind: string)
    ensures Equals(EntityRef(kind, Some([KNone])), EntityRef(kind, Some([KNone])))
  {
  }

  /** Equal entities hash, and hash alike; the hash depends on the identity tuple alone. */
  lemma HashRespectsEquals(a: EntityRef, b: EntityRef, hash: seq<Key> -> int)
    requires Equals(a, b)
    ensures Hash(a, hash).Ok? && Hash(a, hash) == Hash(b, hash)
    ensures Hash(a, hash).value == hash(a.identity.value)
  {
  }
}
