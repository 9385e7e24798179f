/** The session store (src/store/auth-store.ts): mock sign-in against a
    fixed table of users keyed by ABHA id, sign-out, and user replacement. */
module AuthStore {
  import opened Wrappers
  import opened Records

  const InvalidUserMessage: string := "Invalid ABHA ID or user not found"

  /** A value a rejected promise carries: an `Error` with its message, or
      anything else. */
  datatype Thrown = ErrorValue(message: string) | OtherValue

  function MockUser(id: string, abhaId: string, name: string, email: string, role: string,
                    hospitalId: Option<string>, state: string, city: string, phone: string,
                    specialization: Option<string>, licenseNumber: Option<string>,
                    department: string): User
  {
    User(id, abhaId, name, Some(email), role, hospitalId, Some(state), Some(city), Some(phone),
         specialization, licenseNumber, Some(department), true,
         "2024-01-01T00:00:00Z", "2024-01-01T00:00:00Z")
  }

  /** The three demo users, keyed by ABHA id. */
  const MockUsers: map<string, User> := map[
    "ABHA123456789012" := MockUser("610e8400-e29b-41d4-a716-446655440001", "ABHA123456789012",
      "Dr. Rajesh Kumar", "rajesh.kumar@apollochennai.com", "doctor",
      Some("550e8400-e29b-41d4-a716-446655440001"), "Tamil Nadu", "Chennai", "+91-9876543210",
      Some("Cardiology"), Some("TN/DOC/001"), "Cardiology"),
    "ABHA223456789012" := MockUser("610e8400-e29b-41d4-a716-446655440006", "ABHA223456789012",
      "Ravi Krishnan", "ravi.krishnan@apollochennai.com", "admin",
      Some("550e8400-e29b-41d4-a716-446655440001"), "Tamil Nadu", "Chennai", "+91-9876543215",
      None, None, "Administration"),
    "ABHA323456789012" := MockUser("610e8400-e29b-41d4-a716-446655440008", "ABHA323456789012",
      "Dr. Suresh Chand", "suresh.chand@ayush.gov.in", "government",
      None, "Delhi", "New Delhi", "+91-9876543217",
      None, None, "Ministry of Ayush")
  ]

  /** The names every object literal inherits from `Object.prototype`. */
  const ObjectPrototypeMembers: set<string> := {
    "constructor", "hasOwnProperty", "isPrototypeOf", "propertyIsEnumerable",
    "toLocaleString", "toString", "valueOf", "__proto__",
    "__defineGetter__", "__defineSetter__", "__lookupGetter__", "__lookupSetter__"
  }

  /** What indexing the object literal yields: a user under one of its own
      keys, an inherited member (a function, or the prototype itself for
      `__proto__`; truthy either way), or `undefined`. */
  datatype Indexed = OwnUser(user: User) | InheritedMember(name: string) | Undefined

  /** `mockUsers[abhaId]` as written: a plain object literal also answers for
      the names it inherits. */
  function IndexMockUsers(abhaId: string): (r: Indexed)
    ensures r.OwnUser? <==> abhaId in MockUsers
    ensures r.OwnUser? ==> r.user == MockUsers[abhaId]
    ensures r.InheritedMember? <==> abhaId !in MockUsers && abhaId in ObjectPrototypeMembers
    ensures r.InheritedMember? ==> r.name == abhaId
  {
    if abhaId in MockUsers then OwnUser(MockUsers[abhaId])
    else if abhaId in ObjectPrototypeMembers then InheritedMember(abhaId)
    else Undefined
  }

  /** The `!user` check as written refuses only `undefined`. */
  predicate RefusedAsWritten(abhaId: string) {
    IndexMockUsers(abhaId).Undefined?
  }

  /** The lookup the sign-in evidently intends: own keys only, exact, with
      no trimming and no case folding. The rest of the model uses it. */
  function LookupUser(abhaId: string): (r: Option<User>)
    ensures r.Some? <==> abhaId in MockUsers
    ensures r.Some? ==> r.value == MockUsers[abhaId]
  {
    if abhaId in MockUsers then Some(MockUsers[abhaId]) else None
  }

  /** No key of the table is an inherited name: every key starts with 'A',
      no inherited name does. */
  lemma KeysAreNotInherited()
    ensures forall k :: k in MockUsers ==> k !in ObjectPrototypeMembers
  {
    forall k | k in MockUsers ensures k !in ObjectPrototypeMembers {
      assert k[0] == 'A';
    }
  }

  /** As written, every inherited name passes the `!user` check although no
      demo user has it, so `login` would sign in with that member as the
      user. */
  lemma InheritedNamesPassAsWritten(name: string)
    requires name in ObjectPrototypeMembers
    ensures !RefusedAsWritten(name)
    ensures LookupUser(name).None?
  {
    KeysAreNotInherited();
  }

  /** The concrete case: "constructor" finds `Object`. */
  lemma ConstructorPassesAsWritten()
    ensures IndexMockUsers("constructor") == InheritedMember("constructor")
    ensures LookupUser("constructor").None?
  {
    InheritedNamesPassAsWritten("constructor");
  }

  /** The intended lookup agrees with the written one on the table's own
      keys, and refuses exactly what the written one refuses together with
      the inherited names. */
  lemma LookupRefusesInherited(abhaId: string)
    ensures LookupUser(abhaId).Some? <==> IndexMockUsers(abhaId).OwnUser?
    ensures LookupUser(abhaId).Some? ==> IndexMockUsers(abhaId).user == LookupUser(abhaId).value
    ensures LookupUser(abhaId).None? <==> (RefusedAsWritten(abhaId) || abhaId in ObjectPrototypeMembers)
  {
    KeysAreNotInherited();
  }

  /** Every key of the table is the ABHA id of the user it maps to. */
  lemma MockUsersKeyedByAbhaId()
    ensures |MockUsers| == 3
    ensures forall k :: k in MockUsers ==> MockUsers[k].abhaId == k
  {
  }

  /** The part of the store that is written to browser storage. */
  datatype PersistedState = PersistedState(user: Option<User>, isAuthenticated: bool)

  class Store {
    var user: Option<User>
    var isAuthenticated: bool
    var isLoading: bool

    /** Between calls nobody is signed in without a user and nothing is
        loading. (`updateUser` may set a user while signed out.) */
    ghost predicate Valid()
      reads this
    {
      (isAuthenticated ==> user.Some?) && !isLoading
    }

    constructor ()
      ensures Valid()
      ensures user == None && !isAuthenticated && !isLoading
    {
      user := None;
      isAuthenticated := false;
      isLoading := false;
    }

    /** `login(abhaId)`: a known id signs that user in and resolves with it;
        an unknown id rejects with an `Error` and leaves the session as it
        was. Loading is reset on both paths. */
    method Login(abhaId: string) returns (r: Result<User, Thrown>)
      requires Valid()
      modifies this
      ensures Valid()
      ensures abhaId in MockUsers ==>
        && r == Success(MockUsers[abhaId])
        && user == Some(MockUsers[abhaId]) && isAuthenticated
      ensures abhaId !in MockUsers ==>
        && r == Failure(ErrorValue(InvalidUserMessage))
        && user == old(user) && isAuthenticated == old(isAuthenticated)
      ensures !isLoading
    {
      isLoading := true;
      var found := LookupUser(abhaId);
      if found.None? {
        isLoading := false;
        r := Failure(ErrorValue(InvalidUserMessage));
        return;
      }
      user, isAuthenticated, isLoading := found, true, false;
      r := Success(found.value);
    }

    /** `logout()`. */
    method Logout()
      modifies this
      ensures Valid()
      ensures user == None && !isAuthenticated && !isLoading
    {
      user, isAuthenticated, isLoading := None, false, false;
    }

    /** `updateUser(u)`: replaces only the user. */
    method UpdateUser(u: User)
      requires Valid()
      modifies this`user
      ensures Valid()
      ensures user == Some(u)
    {
      user := Some(u);
    }

    /** A session restored from storage that says it is signed in has a
        user. */
    lemma PersistedSignedInHasUser()
      requires Valid()
      ensures Persisted().isAuthenticated ==> Persisted().user.Some?
    {
    }

    /** `partialize`: what is persisted is the user and the signed-in flag. */
    function Persisted(): (p: PersistedState)
      reads this
      ensures p.user == user && p.isAuthenticated == isAuthenticated
    {
      PersistedState(user, isAuthenticated)
    }
  }
}
