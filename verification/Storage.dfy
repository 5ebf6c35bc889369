/** The storage adapters that clients share: sdk/go/storage.go and sdk/go/storage_protected.go. A store value says
    what an adapter answers; the two adapter objects keep to it. */
module Storage {
  import opened Common
  import opened Text

  datatype StoredCredential = StoredCredential(
    applicationID: Text, environmentID: Text, activationID: Text, licenceID: Text, installationID: Text,
    credential: Text, credentialExpiresAt: int, fingerprint: Option<Text>, fingerprintProvider: Option<Text>)

  datatype Kind = InMemory | Protected

  datatype Store = Store(kind: Kind, version: nat, credential: Option<StoredCredential>, poisoned: bool)

  /** Whether the provider's read or write fails this time; memory never fails. */
  datatype Fault = Fault(readFails: bool, writeFails: bool)

  datatype SaveResult = Saved | Stale | Failed

  function Readable(s: Store, fault: Fault): bool {
    s.kind == InMemory || (!s.poisoned && !fault.readFails)
  }

  /** A provider that failed once is never used again. */
  function Poison(s: Store): Store {
    if s.kind == InMemory then s else s.(poisoned := true)
  }

  function ReadVersion(s: Store, fault: Fault): (r: (Store, Option<nat>)) {
    if Readable(s, fault) then (s, Some(s.version)) else (Poison(s), None)
  }

  function SaveAt(s: Store, expected: nat, credential: StoredCredential, fault: Fault): (r: (Store, SaveResult)) {
    if !Readable(s, fault) then (Poison(s), Failed)
    else if expected != s.version then (s, Stale)
    else if s.kind == Protected && fault.writeFails then (Poison(s), Failed)
    else (s.(credential := Some(credential)), Saved)
  }

  /** The largest version an adapter can hold; the next invalidation fails. */
  function LastVersion(kind: Kind): nat {
    if kind == InMemory then MAX_UINT64 else MAX_INT64
  }

  function InvalidateStore(s: Store, fault: Fault): (r: (Store, Option<nat>)) {
    if s.kind == InMemory then
      if s.version == LastVersion(InMemory) then (s.(credential := None), None)
      else (s.(credential := None, version := s.version + 1), Some(s.version + 1))
    else if !Readable(s, fault) || s.version == LastVersion(Protected) || fault.writeFails then (Poison(s), None)
    else (s.(credential := None, version := s.version + 1), Some(s.version + 1))
  }

  /** Storage takes a save at this version. */
  predicate TakesSave(s: Store, expected: nat, fault: Fault) {
    && expected == s.version
    && (s.kind == InMemory || (!s.poisoned && !fault.readFails && !fault.writeFails))
  }

  /** Storage takes an invalidation. */
  predicate TakesInvalidation(s: Store, fault: Fault) {
    if s.kind == InMemory then s.version != MAX_UINT64
    else s.version != MAX_INT64 && !s.poisoned && !fault.readFails && !fault.writeFails
  }

  /** A save happens exactly at the version it names, if storage answers and writes; it never moves the version, and what
      fails spoils a provider but nothing that is stored. */
  lemma SaveIsFenced(s: Store, expected: nat, credential: StoredCredential, fault: Fault)
    ensures var (t, r) := SaveAt(s, expected, credential, fault);
            && t.version == s.version && t.kind == s.kind
            && (r == Saved <==> TakesSave(s, expected, fault))
            && (r == Saved ==> t == s.(credential := Some(credential)))
            && (r == Stale ==> t == s && expected != s.version)
            && (r == Failed ==> s.kind == Protected && t == s.(poisoned := true))
  {}

  /** An invalidation that storage takes raises the version by one and removes the credential; memory forgets the
      credential even when its last version is reached. */
  lemma InvalidationAdvances(s: Store, fault: Fault)
    ensures var (t, r) := InvalidateStore(s, fault);
            && t.version >= s.version && t.kind == s.kind
            && (r.Some? <==> TakesInvalidation(s, fault))
            && (r.Some? ==> r.value == t.version && t == s.(version := s.version + 1, credential := None))
            && (r.None? ==> t == if s.kind == InMemory then s.(credential := None) else s.(poisoned := true))
  {}

  /** A version is read exactly when storage answers, and is the one stored. */
  lemma VersionIsRead(s: Store, fault: Fault)
    ensures var (t, r) := ReadVersion(s, fault);
            if s.kind == InMemory || (!s.poisoned && !fault.readFails) then t == s && r == Some(s.version)
            else t == s.(poisoned := true) && r.None?
  {}

  class MemoryStorage {
    var version: nat
    var credential: Option<StoredCredential>

    ghost function State(): Store
      reads this
    {
      Store(InMemory, version, credential, false)
    }

    constructor ()
      ensures State() == Store(InMemory, 0, None, false)
    {
      version, credential := 0, None;
    }

    method Version() returns (v: nat)
      ensures ReadVersion(State(), Fault(false, false)) == (State(), Some(v))
    {
      return version;
    }

    method Load() returns (v: nat, c: Option<StoredCredential>)
      ensures v == State().version && c == State().credential
    {
      return version, credential;
    }

    method Save(expected: nat, c: StoredCredential) returns (r: SaveResult)
      modifies this
      ensures (State(), r) == SaveAt(old(State()), expected, c, Fault(false, false))
    {
      if expected != version { return Stale; }
      credential := Some(c);
      return Saved;
    }

    method Invalidate() returns (v: Option<nat>)
      modifies this
      ensures (State(), v) == InvalidateStore(old(State()), Fault(false, false))
    {
      credential := None;
      if version == MAX_UINT64 { return None; }
      version := version + 1;
      return Some(version);
    }
  }

  /** The adapter over a native provider whose reads and writes may fail. */
  class ProtectedStorage {
    var version: nat                          // what the provider last held
    var credential: Option<StoredCredential>
    var poisoned: bool

    ghost function State(): Store
      reads this
    {
      Store(Protected, version, credential, poisoned)
    }

    constructor (version: nat, credential: Option<StoredCredential>)
      ensures State() == Store(Protected, version, credential, false)
    {
      this.version, this.credential, poisoned := version, credential, false;
    }

    method LoadLocked(fault: Fault) returns (ok: bool, v: nat, c: Option<StoredCredential>)
      modifies this
      ensures ok == Readable(old(State()), fault)
      ensures State() == if ok then old(State()) else Poison(old(State()))
      ensures ok ==> v == version && c == credential
    {
      if poisoned { return false, 0, None; }
      if fault.readFails {
        poisoned := true;
        return false, 0, None;
      }
      return true, version, credential;
    }

    method Version(fault: Fault) returns (v: Option<nat>)
      modifies this
      ensures (State(), v) == ReadVersion(old(State()), fault)
    {
      var ok, number, _ := LoadLocked(fault);
      return if ok then Some(number) else None;
    }

    method Save(expected: nat, c: StoredCredential, fault: Fault) returns (r: SaveResult)
      modifies this
      ensures (State(), r) == SaveAt(old(State()), expected, c, fault)
    {
      var ok, number, _ := LoadLocked(fault);
      if !ok { return Failed; }
      if expected != number { return Stale; }
      if fault.writeFails {
        poisoned := true;
        return Failed;
      }
      credential := Some(c);
      return Saved;
    }

    method Invalidate(fault: Fault) returns (v: Option<nat>)
      modifies this
      ensures (State(), v) == InvalidateStore(old(State()), fault)
    {
      var ok, number, _ := LoadLocked(fault);
      if !ok { return None; }
      if number == MAX_INT64 || fault.writeFails {
        poisoned := true;
        return None;
      }
      version, credential := number + 1, None;
      return Some(version);
    }
  }
}
