/** An account's addresses: opening their keys, leaving out an address that does not
    open, and never letting another stand in for the default one. */
module Account {
  import opened Wrappers
  import opened Sorting

  /** An operation that cannot succeed, or a failure of another kind. */
  datatype Failure = Invalid(reason: string) | Other(reason: string)

  datatype KeyDto = KeyDto(
    id: string, active: bool, primary: bool, token: Option<string>, signature: Option<string>, armored: string)

  datatype AddressDto = AddressDto(id: string, order: int, keys: seq<KeyDto>)

  datatype Address = Address(id: string, order: int, primaryKeyIndex: nat, primaryKeyId: string)

  /** What unlocks address keys: tokens the user keys decrypt, passphrases by key id,
      and an armored key opened with its passphrase. */
  datatype Keyring = Keyring(
    decryptToken: string -> Option<string>, passphrases: map<string, string>, open: (string, string) -> Option<string>)

  // --------------------------------------------------------------- one address's keys

  function Passphrase(key: KeyDto, ring: Keyring): Option<string> {
    if key.token.Some? && key.signature.Some? then ring.decryptToken(key.token.value)
    else if key.id in ring.passphrases then Some(ring.passphrases[key.id])
    else None
  }

  function Unlock(key: KeyDto, ring: Keyring): Option<string> {
    var passphrase := Passphrase(key, ring);
    if !key.active || passphrase.None? then None else ring.open(key.armored, passphrase.value)
  }

  /** The active keys that open, in order. */
  function Unlocked(keys: seq<KeyDto>, ring: Keyring): seq<string> {
    if keys == [] then []
    else
      var before, last := Unlocked(keys[..|keys| - 1], ring), Unlock(keys[|keys| - 1], ring);
      if last.Some? then before + [last.value] else before
  }

  /** An active key opens with the passphrase its token decrypts to if it has a signed one,
      and otherwise with the one known for its id. */
  ghost predicate OpensAs(key: KeyDto, ring: Keyring, plain: string) {
    && key.active
    && if key.token.Some? && key.signature.Some?
       then
         && ring.decryptToken(key.token.value).Some?
         && ring.open(key.armored, ring.decryptToken(key.token.value).value) == Some(plain)
       else key.id in ring.passphrases && ring.open(key.armored, ring.passphrases[key.id]) == Some(plain)
  }

  /** What is opened is what active keys open as, no more and no less. */
  lemma {:induction false} OpenedAreActive(keys: seq<KeyDto>, ring: Keyring, plain: string)
    ensures plain in Unlocked(keys, ring) <==> exists key :: key in keys && OpensAs(key, ring, plain)
    decreases |keys|
  {
    if keys != [] {
      var shorter, last := keys[..|keys| - 1], keys[|keys| - 1];
      OpenedAreActive(shorter, ring, plain);
      assert forall key :: key in keys <==> key in shorter || key == last;
      assert OpensAs(last, ring, plain) <==> Unlock(last, ring) == Some(plain);
    }
  }

  /** Key `p` opens as the address's primary key, and none before it does. */
  ghost predicate PrimaryAt(keys: seq<KeyDto>, ring: Keyring, p: nat) {
    && p < |keys| && keys[p].primary && Unlock(keys[p], ring).Some?
    && forall q :: 0 <= q < p ==> !(keys[q].primary && Unlock(keys[q], ring).Some?)
  }

  lemma {:induction false} UnlockedAt(keys: seq<KeyDto>, ring: Keyring, p: nat)
    requires p < |keys| && Unlock(keys[p], ring).Some?
    ensures var before := |Unlocked(keys[..p], ring)|;
      before < |Unlocked(keys, ring)| && Unlocked(keys, ring)[before] == Unlock(keys[p], ring).value
    decreases |keys|
  {
    var shorter := keys[..|keys| - 1];
    if p < |keys| - 1 {
      UnlockedAt(shorter, ring, p);
      assert shorter[..p] == keys[..p];
    }
  }

  /** The address opens, with these keys and this primary one. */
  ghost predicate Opens(dto: AddressDto, ring: Keyring, address: Address, keys: seq<string>) {
    && keys == Unlocked(dto.keys, ring)
    && address.id == dto.id && address.order == dto.order
    && exists p: nat :: PrimaryAt(dto.keys, ring, p)
         && address.primaryKeyId == dto.keys[p].id
         && address.primaryKeyIndex == |Unlocked(dto.keys[..p], ring)|
  }

  /** The primary index names the first opened active primary key. */
  lemma PrimaryIndexNamesIt(dto: AddressDto, ring: Keyring, address: Address, keys: seq<string>)
    requires Opens(dto, ring, address, keys)
    ensures address.primaryKeyIndex < |keys|
    ensures exists p: nat :: PrimaryAt(dto.keys, ring, p) && dto.keys[p].id == address.primaryKeyId
                        && keys[address.primaryKeyIndex] == Unlock(dto.keys[p], ring).value
  {
    var p: nat :| PrimaryAt(dto.keys, ring, p) && address.primaryKeyId == dto.keys[p].id
             && address.primaryKeyIndex == |Unlocked(dto.keys[..p], ring)|;
    UnlockedAt(dto.keys, ring, p);
  }

  function NoPrimaryKey(id: string): string {
    "address " + id + " has no primary key"
  }

  method DecryptAddress(dto: AddressDto, ring: Result<Keyring, Failure>)
    returns (r: Result<(Address, seq<string>), Failure>)
    ensures ring.Err? ==> r == Err(ring.error)
    ensures ring.Ok? ==> (r.Ok? <==> exists p: nat :: PrimaryAt(dto.keys, ring.value, p))
    ensures r.Ok? ==> Opens(dto, ring.value, r.value.0, r.value.1)
    ensures ring.Ok? && r.Err? ==> r.error == Invalid(NoPrimaryKey(dto.id))
  {
    if ring.Err? {
      return Err(ring.error);
    }
    var keys: seq<string> := [];
    var primary: Option<(nat, string)> := None;
    ghost var at: nat := 0;
    var i := 0;
    while i < |dto.keys|
      invariant 0 <= i <= |dto.keys|
      invariant keys == Unlocked(dto.keys[..i], ring.value)
      invariant primary.None? ==> forall q :: 0 <= q < i ==>
          !(dto.keys[q].primary && Unlock(dto.keys[q], ring.value).Some?)
      invariant primary.Some? ==> at < i && PrimaryAt(dto.keys, ring.value, at)
                                  && primary.value == (|Unlocked(dto.keys[..at], ring.value)|, dto.keys[at].id)
    {
      var key := dto.keys[i];
      assert dto.keys[..i + 1][..i] == dto.keys[..i];
      if key.active {
        var passphrase := Passphrase(key, ring.value);
        if passphrase.Some? {
          var usable := ring.value.open(key.armored, passphrase.value);
          if usable.Some? {
            if key.primary && primary.None? {
              primary, at := Some((|keys|, key.id)), i;
            }
            keys := keys + [usable.value];
          }
        }
      }
      i := i + 1;
    }
    assert dto.keys[..i] == dto.keys;
    if primary.None? {
      return Err(Invalid(NoPrimaryKey(dto.id)));
    }
    return Ok((Address(dto.id, dto.order, primary.value.0, primary.value.1), keys));
  }

  // ------------------------------------------------------------------ all addresses

  /** What opening each address of a response gave. */
  type Attempts = seq<Result<(Address, seq<string>), Failure>>

  type Rings = nat -> Result<Keyring, Failure>

  /** What opening one address gives: its keys, or why it has none to use. */
  ghost predicate AttemptAt(dto: AddressDto, ring: Result<Keyring, Failure>,
                            attempt: Result<(Address, seq<string>), Failure>)
  {
    if attempt.Ok? then ring.Ok? && Opens(dto, ring.value, attempt.value.0, attempt.value.1)
    else
      && attempt.error == (if ring.Err? then ring.error else Invalid(NoPrimaryKey(dto.id)))
      && (ring.Ok? ==> forall p: nat :: !PrimaryAt(dto.keys, ring.value, p))
  }

  /** `attempts` are what opening each of `dtos` gives. */
  ghost predicate Attempted(dtos: seq<AddressDto>, rings: Rings, attempts: Attempts) {
    && |attempts| == |dtos|
    && forall i {:trigger attempts[i]} :: 0 <= i < |dtos| ==> AttemptAt(dtos[i], rings(i), attempts[i])
  }

  /** The addresses that opened, in server order. */
  function Opened(attempts: Attempts): seq<Address> {
    if attempts == [] then []
    else
      var before, last := Opened(attempts[..|attempts| - 1]), attempts[|attempts| - 1];
      if last.Ok? then before + [last.value.0] else before
  }

  /** The least element's position, the first of equals. */
  function FirstLeast<T>(s: seq<T>, key: T -> int): (m: nat)
    requires s != []
    ensures m < |s|
    ensures forall j :: 0 <= j < |s| ==> key(s[m]) <= key(s[j])
    ensures forall j :: 0 <= j < m ==> key(s[m]) < key(s[j])
  {
    if |s| == 1 then 0
    else
      var m := FirstLeast(s[..|s| - 1], key);
      if key(s[|s| - 1]) < key(s[m]) then |s| - 1 else m
  }

  /** A stable sort puts the first of the least elements in front. */
  lemma {:induction false} SortFront<T>(s: seq<T>, key: T -> int)
    requires s != []
    ensures SortBy(s, key) != [] && SortBy(s, key)[0] == s[FirstLeast(s, key)]
  {
    if |s| > 1 {
      SortFront(s[1..], key);
      var m := FirstLeast(s[1..], key);
      assert s[1..][m] == s[m + 1];
      var n := FirstLeast(s, key);
      assert n > 0 ==> s[1..][n - 1] == s[n];
    }
  }

  function OrderOf(address: Address): int { address.order }
  function OrderOfDto(dto: AddressDto): int { dto.order }

  lemma {:induction false} OpenedAt(attempts: Attempts, m: nat)
    requires m < |attempts| && attempts[m].Ok?
    ensures var before := Opened(attempts[..m]);
      before + [attempts[m].value.0] <= Opened(attempts)
    decreases |attempts|
  {
    if m < |attempts| - 1 {
      var shorter := attempts[..|attempts| - 1];
      OpenedAt(shorter, m);
      assert shorter[..m] == attempts[..m];
    }
  }

  lemma {:induction false} OpenedBounded(dtos: seq<AddressDto>, rings: Rings, attempts: Attempts, low: int)
    requires Attempted(dtos, rings, attempts) && forall i :: 0 <= i < |dtos| ==> dtos[i].order >= low
    ensures forall a :: a in Opened(attempts) ==> a.order >= low
    decreases |dtos|
  {
    if dtos != [] {
      var n := |dtos| - 1;
      OpenedBounded(dtos[..n], rings, attempts[..n], low);
    }
  }

  /** The first of the least elements is the one with nothing less, and nothing as little
      before it. */
  lemma OnlyFirstLeast(s: seq<Address>, p: nat)
    requires p < |s|
    requires forall j :: 0 <= j < |s| ==> s[p].order <= s[j].order
    requires forall j :: 0 <= j < p ==> s[p].order < s[j].order
    ensures FirstLeast(s, OrderOf) == p
  {
    var q := FirstLeast(s, OrderOf);
    assert OrderOf(s[q]) <= OrderOf(s[p]);
    assert forall j :: 0 <= j < q ==> OrderOf(s[q]) < OrderOf(s[j]);
  }

  lemma LeastIsBound(dtos: seq<AddressDto>)
    requires dtos != []
    ensures var m := FirstLeast(dtos, OrderOfDto);
      && (forall i :: 0 <= i < |dtos| ==> dtos[i].order >= dtos[m].order)
      && (forall i :: 0 <= i < m ==> dtos[i].order >= dtos[m].order + 1)
  {
    var m := FirstLeast(dtos, OrderOfDto);
    assert forall i :: 0 <= i < |dtos| ==> OrderOfDto(dtos[m]) <= OrderOfDto(dtos[i]);
    assert forall i :: 0 <= i < m ==> OrderOfDto(dtos[m]) < OrderOfDto(dtos[i]);
  }

  /** If the account's lowest-ordered address opened, it comes first among those that
      did, whatever else failed. */
  lemma LeastOpens(dtos: seq<AddressDto>, rings: Rings, attempts: Attempts)
    requires Attempted(dtos, rings, attempts) && dtos != []
    requires attempts[FirstLeast(dtos, OrderOfDto)].Ok?
    ensures Opened(attempts) != []
    ensures Opened(attempts)[FirstLeast(Opened(attempts), OrderOf)] == attempts[FirstLeast(dtos, OrderOfDto)].value.0
  {
    LeastIsBound(dtos);
    FirstOpened(dtos, rings, attempts, FirstLeast(dtos, OrderOfDto));
  }

  lemma FirstOpened(dtos: seq<AddressDto>, rings: Rings, attempts: Attempts, m: nat)
    requires Attempted(dtos, rings, attempts) && m < |dtos| && attempts[m].Ok?
    requires forall i :: 0 <= i < |dtos| ==> dtos[i].order >= dtos[m].order
    requires forall i :: 0 <= i < m ==> dtos[i].order >= dtos[m].order + 1
    ensures Opened(attempts) != []
    ensures Opened(attempts)[FirstLeast(Opened(attempts), OrderOf)] == attempts[m].value.0
  {
    var all, before := Opened(attempts), Opened(attempts[..m]);
    OpenedAt(attempts, m);
    OpenedBounded(dtos, rings, attempts, dtos[m].order);
    OpenedBounded(dtos[..m], rings, attempts[..m], dtos[m].order + 1);
    assert all[|before|] == attempts[m].value.0 && all[|before|].order == dtos[m].order;
    forall j | 0 <= j < |all| ensures all[j].order >= dtos[m].order {
      assert all[j] in all;
    }
    forall j | 0 <= j < |before| ensures all[j].order > dtos[m].order {
      assert all[j] == before[j] && before[j] in before;
    }
    OnlyFirstLeast(all, |before|);
  }

  // --------------------------------------------------------------------- the account

  /** What the server and the key store answer while addresses load. */
  datatype Server = Server(
    userKeys: Result<(), Failure>, list: Result<seq<AddressDto>, Failure>, ring: Rings)

  /** Why each address that did not open did not: the last reason given for its id. */
  function Reasons(dtos: seq<AddressDto>, attempts: Attempts): map<string, string>
    requires |attempts| == |dtos|
  {
    if dtos == [] then map[]
    else
      var n := |dtos| - 1;
      var before := Reasons(dtos[..n], attempts[..n]);
      if attempts[n].Err? then before[dtos[n].id := attempts[n].error.reason] else before
  }

  /** Address `i` did not open, and no later one with its id failed. */
  ghost predicate LastFailed(dtos: seq<AddressDto>, attempts: Attempts, i: nat)
    requires |attempts| == |dtos|
  {
    && i < |dtos| && attempts[i].Err?
    && forall j :: i < j < |dtos| && attempts[j].Err? ==> dtos[j].id != dtos[i].id
  }

  lemma {:induction false} ReasonsMean(dtos: seq<AddressDto>, attempts: Attempts, id: string)
    requires |attempts| == |dtos|
    ensures id in Reasons(dtos, attempts) <==> exists i :: 0 <= i < |dtos| && dtos[i].id == id && attempts[i].Err?
    ensures forall i {:trigger LastFailed(dtos, attempts, i)} ::
              0 <= i < |dtos| && LastFailed(dtos, attempts, i) && dtos[i].id == id ==>
                id in Reasons(dtos, attempts) && Reasons(dtos, attempts)[id] == attempts[i].error.reason
    decreases |dtos|
  {
    if dtos != [] {
      var n := |dtos| - 1;
      ReasonsMean(dtos[..n], attempts[..n], id);
      if id in Reasons(dtos[..n], attempts[..n]) {
        var i :| 0 <= i < n && dtos[..n][i].id == id && attempts[..n][i].Err?;
        assert dtos[i].id == id && attempts[i].Err?;
      }
      forall i | 0 <= i < |dtos| && LastFailed(dtos, attempts, i) && dtos[i].id == id
        ensures id in Reasons(dtos, attempts) && Reasons(dtos, attempts)[id] == attempts[i].error.reason
      {
        if i < n {
          assert dtos[..n][i] == dtos[i] && attempts[..n][i] == attempts[i];
          assert LastFailed(dtos[..n], attempts[..n], i);
        }
      }
    }
  }

  /** Why the first address that did not open did not. */
  function FirstReason(attempts: Attempts): Option<string> {
    if attempts == [] then None
    else
      var before, last := FirstReason(attempts[..|attempts| - 1]), attempts[|attempts| - 1];
      if before.None? && last.Err? then Some(last.error.reason) else before
  }

  /** No address opens, the first of them for this reason. */
  ghost predicate NoneOpens(dtos: seq<AddressDto>, rings: Rings, reason: string) {
    exists tries :: Attempted(dtos, rings, tries) && Opened(tries) == [] && FirstReason(tries) == Some(reason)
  }

  lemma AttemptedNext(dtos: seq<AddressDto>, ring: Rings, attempts: Attempts, dto: AddressDto,
                      attempt: Result<(Address, seq<string>), Failure>)
    requires Attempted(dtos, ring, attempts) && AttemptAt(dto, ring(|dtos|), attempt)
    ensures Attempted(dtos + [dto], ring, attempts + [attempt])
    ensures Opened(attempts + [attempt]) ==
            if attempt.Ok? then Opened(attempts) + [attempt.value.0] else Opened(attempts)
    ensures FirstReason(attempts + [attempt]) ==
            if FirstReason(attempts).None? && attempt.Err? then Some(attempt.error.reason) else FirstReason(attempts)
    ensures Reasons(dtos + [dto], attempts + [attempt]) ==
            if attempt.Err? then Reasons(dtos, attempts)[dto.id := attempt.error.reason] else Reasons(dtos, attempts)
  {
    assert (attempts + [attempt])[..|attempts|] == attempts && (dtos + [dto])[..|dtos|] == dtos;
  }

  /** Address `i` is the first that did not open. */
  ghost predicate FirstFailed(attempts: Attempts, i: nat) {
    i < |attempts| && attempts[i].Err? && forall j :: 0 <= j < i ==> attempts[j].Ok?
  }

  /** The first reason is the first failure's. */
  lemma {:induction false} FirstReasonMeans(attempts: Attempts)
    ensures FirstReason(attempts).None? <==> forall i :: 0 <= i < |attempts| ==> attempts[i].Ok?
    ensures forall i: nat :: FirstFailed(attempts, i) ==> FirstReason(attempts) == Some(attempts[i].error.reason)
    decreases |attempts|
  {
    if attempts != [] {
      var n := |attempts| - 1;
      FirstReasonMeans(attempts[..n]);
      assert forall j :: 0 <= j < n ==> attempts[..n][j] == attempts[j];
      forall i: nat | FirstFailed(attempts, i) ensures FirstReason(attempts) == Some(attempts[i].error.reason) {
        if i < n { assert FirstFailed(attempts[..n], i); }
      }
    }
  }

  /** What opening these addresses has given so far. */
  ghost predicate OpenedSoFar(dtos: seq<AddressDto>, ring: Rings, tries: Attempts, usable: seq<Address>,
                              broken: map<string, string>, firstError: Option<string>)
  {
    && Attempted(dtos, ring, tries) && usable == Opened(tries)
    && broken == Reasons(dtos, tries) && firstError == FirstReason(tries)
    && (usable == [] && firstError.None? ==> dtos == [])
  }

  lemma OpenedNext(dtos: seq<AddressDto>, ring: Rings, tries: Attempts, usable: seq<Address>,
                   broken: map<string, string>, firstError: Option<string>,
                   dto: AddressDto, attempt: Result<(Address, seq<string>), Failure>)
    requires OpenedSoFar(dtos, ring, tries, usable, broken, firstError) && AttemptAt(dto, ring(|dtos|), attempt)
    ensures attempt.Ok? ==>
              OpenedSoFar(dtos + [dto], ring, tries + [attempt], usable + [attempt.value.0], broken, firstError)
    ensures attempt.Err? ==>
              OpenedSoFar(dtos + [dto], ring, tries + [attempt], usable, broken[dto.id := attempt.error.reason],
                          if firstError.None? then Some(attempt.error.reason) else firstError)
  {
    AttemptedNext(dtos, ring, tries, dto, attempt);
  }

  /** Address `i` is the last opened one with this id. */
  ghost predicate LastOpened(tries: Attempts, id: string, i: nat) {
    && i < |tries| && tries[i].Ok? && tries[i].value.0.id == id
    && forall j :: i < j < |tries| && tries[j].Ok? ==> tries[j].value.0.id != id
  }

  /** `keys` holds, for each id, those of the last address opened with it, and otherwise
      what was known. */
  ghost predicate KeysHold(tries: Attempts, known: map<string, seq<string>>, keys: map<string, seq<string>>) {
    && (forall id: string, i: nat :: LastOpened(tries, id, i) ==>
          id in keys && keys[id] == tries[i].value.1)
    && (forall id :: NeverOpened(tries, id) ==> (id in keys <==> id in known) && (id in keys ==> keys[id] == known[id]))
  }

  ghost predicate NeverOpened(tries: Attempts, id: string) {
    forall i :: 0 <= i < |tries| && tries[i].Ok? ==> tries[i].value.0.id != id
  }

  lemma KeysNext(tries: Attempts, known: map<string, seq<string>>, keys: map<string, seq<string>>,
                 attempt: Result<(Address, seq<string>), Failure>)
    requires KeysHold(tries, known, keys)
    ensures KeysHold(tries + [attempt], known,
                     if attempt.Ok? then keys[attempt.value.0.id := attempt.value.1] else keys)
  {
    var longer := tries + [attempt];
    assert forall i :: 0 <= i < |tries| ==> longer[i] == tries[i];
    assert longer[|tries|] == attempt;
    forall id: string, i: nat | LastOpened(longer, id, i) && i < |tries| ensures LastOpened(tries, id, i) {
    }
    forall id | NeverOpened(longer, id) ensures NeverOpened(tries, id) {
    }
  }

  /** None of the first `n` fails in a way that says nothing of the address. */
  ghost predicate OnlyInvalid(ring: Rings, n: nat) {
    forall j: nat :: j < n && ring(j).Err? ==> ring(j).error.Invalid?
  }

  /** Opening address `n` fails in a way that says nothing of the address, as none before. */
  ghost predicate FailsFirst(ring: Rings, n: nat, error: Failure) {
    error.Other? && ring(n) == Err(error) && OnlyInvalid(ring, n)
  }

  /** What opening these addresses has given so far, with nothing to end it. */
  ghost predicate SoFar(dtos: seq<AddressDto>, ring: Rings, known: map<string, seq<string>>, tries: Attempts,
                        usable: seq<Address>, broken: map<string, string>, firstError: Option<string>,
                        keys: map<string, seq<string>>)
  {
    && OpenedSoFar(dtos, ring, tries, usable, broken, firstError)
    && KeysHold(tries, known, keys) && OnlyInvalid(ring, |dtos|)
  }

  lemma OneOpened(dtos: seq<AddressDto>, ring: Rings, known: map<string, seq<string>>, tries: Attempts,
                  usable: seq<Address>, broken: map<string, string>, firstError: Option<string>,
                  keys: map<string, seq<string>>, dto: AddressDto, address: Address, unlocked: seq<string>)
    requires SoFar(dtos, ring, known, tries, usable, broken, firstError, keys)
    requires AttemptAt(dto, ring(|dtos|), Ok((address, unlocked)))
    ensures SoFar(dtos + [dto], ring, known, tries + [Ok((address, unlocked))], usable + [address], broken, firstError,
                  keys[address.id := unlocked])
  {
    OpenedNext(dtos, ring, tries, usable, broken, firstError, dto, Ok((address, unlocked)));
    KeysNext(tries, known, keys, Ok((address, unlocked)));
  }

  lemma OneSetAside(dtos: seq<AddressDto>, ring: Rings, known: map<string, seq<string>>, tries: Attempts,
                    usable: seq<Address>, broken: map<string, string>, firstError: Option<string>,
                    keys: map<string, seq<string>>, dto: AddressDto, reason: string)
    requires SoFar(dtos, ring, known, tries, usable, broken, firstError, keys)
    requires AttemptAt(dto, ring(|dtos|), Err(Invalid(reason)))
    ensures SoFar(dtos + [dto], ring, known, tries + [Err(Invalid(reason))], usable, broken[dto.id := reason],
                  if firstError.None? then Some(reason) else firstError, keys)
  {
    OpenedNext(dtos, ring, tries, usable, broken, firstError, dto, Err(Invalid(reason)));
    KeysNext(tries, known, keys, Err(Invalid(reason)));
  }

  /** Open every address of a response, setting aside those that cannot be opened; any
      other kind of failure ends it. */
  method OpenAll(response: seq<AddressDto>, ring: Rings, known: map<string, seq<string>>)
    returns (error: Option<Failure>, usable: seq<Address>, broken: map<string, string>, firstError: Option<string>,
             keys: map<string, seq<string>>, ghost tries: Attempts)
    ensures |tries| <= |response|
    ensures SoFar(response[..|tries|], ring, known, tries, usable, broken, firstError, keys)
    ensures if error.None? then |tries| == |response|
            else |tries| < |response| && FailsFirst(ring, |tries|, error.value)
    ensures error.None? <==> OnlyInvalid(ring, |response|)
  {
    usable, broken, firstError, keys, tries := [], map[], None, known, [];
    var i := 0;
    assert response[..0] == [];
    while i < |response|
      invariant 0 <= i <= |response| && |tries| == i
      invariant SoFar(response[..i], ring, known, tries, usable, broken, firstError, keys)
    {
      assert response[..i + 1] == response[..i] + [response[i]];
      error, usable, broken, firstError, keys, tries :=
        OpenNext(response[..i], response[i], ring(i), ring, known, tries, usable, broken, firstError, keys);
      if error.Some? {
        return;
      }
      i := i + 1;
    }
    return None, usable, broken, firstError, keys, tries;
  }

  /** Open one more address and file what that gives. */
  method OpenNext(ghost dtos: seq<AddressDto>, dto: AddressDto, ring: Result<Keyring, Failure>, ghost rings: Rings,
                  ghost known: map<string, seq<string>>, ghost before: Attempts, usable0: seq<Address>,
                  broken0: map<string, string>, firstError0: Option<string>, keys0: map<string, seq<string>>)
    returns (error: Option<Failure>, usable: seq<Address>, broken: map<string, string>, firstError: Option<string>,
             keys: map<string, seq<string>>, ghost tries: Attempts)
    requires SoFar(dtos, rings, known, before, usable0, broken0, firstError0, keys0) && ring == rings(|dtos|)
    ensures error.None? ==>
              SoFar(dtos + [dto], rings, known, tries, usable, broken, firstError, keys) && |tries| == |before| + 1
    ensures error.Some? <==> ring.Err? && ring.error.Other?
    ensures error.Some? ==>
              && SoFar(dtos, rings, known, tries, usable, broken, firstError, keys) && tries == before
              && FailsFirst(rings, |dtos|, error.value)
  {
    usable, broken, firstError, keys, tries := usable0, broken0, firstError0, keys0, before;
    var attempt := DecryptAddress(dto, ring);
    if attempt.Err? && attempt.error.Other? {
      return Some(attempt.error), usable, broken, firstError, keys, tries;
    }
    match attempt {
      case Ok((address, unlocked)) =>
        OneOpened(dtos, rings, known, before, usable, broken, firstError, keys, dto, address, unlocked);
        keys := keys[address.id := unlocked];
        usable := usable + [address];
      case Err(reason) =>
        OneSetAside(dtos, rings, known, before, usable, broken, firstError, keys, dto, reason.reason);
        broken := broken[dto.id := reason.reason];
        firstError := if firstError.None? then Some(reason.reason) else firstError;
    }
    tries := before + [attempt];
    error := None;
  }

  /** Why the lowest-ordered address, if there is one, did not open. */
  function WhyDefaultFailed(dtos: seq<AddressDto>, failed: map<string, string>): Option<string> {
    if dtos == [] then None
    else
      var least := dtos[FirstLeast(dtos, OrderOfDto)].id;
      if least in failed then Some(failed[least]) else None
  }

  class Account {
    var addresses: Option<seq<Address>>
    var failed: map<string, string>
    var defaultFailed: Option<string>
    var addressKeys: map<string, seq<string>>
    /** The response the cached addresses came from, and how its addresses opened. */
    ghost var dtos: seq<AddressDto>
    ghost var rings: Rings
    ghost var attempts: Attempts

    constructor ()
      ensures Valid() && addresses.None?
    {
      addresses, failed, defaultFailed, addressKeys := None, map[], None, map[];
      dtos, rings, attempts := [], i => Err(Other("")), [];
    }

    ghost predicate Valid()
      reads this
    {
      addresses.Some? ==>
        && Attempted(dtos, rings, attempts)
        && addresses.value == SortBy(Opened(attempts), OrderOf)
        && failed == Reasons(dtos, attempts)
        && defaultFailed == WhyDefaultFailed(dtos, failed)
    }

    /** All addresses that open, by their order; loaded once. */
    method Addresses(server: Server) returns (r: Result<seq<Address>, Failure>)
      requires Valid()
      modifies this
      ensures Valid()
      ensures r.Ok? <==> addresses.Some?
      ensures r.Ok? ==> r.value == addresses.value
      ensures old(addresses).Some? ==>
                addresses == old(addresses) && dtos == old(dtos) && rings == old(rings) && attempts == old(attempts)
                                       && defaultFailed == old(defaultFailed)
      ensures old(addresses).None? && r.Ok? ==> server.list == Ok(dtos) && rings == server.ring
      ensures old(addresses).None? && server.userKeys.Err? ==> r == Err(server.userKeys.error)
      ensures old(addresses).None? && server.userKeys.Ok? && server.list.Err? ==> r == Err(server.list.error)
      ensures r.Err? && server.userKeys.Ok? && server.list.Ok? ==>
                || (exists n: nat :: n < |server.list.value| && FailsFirst(server.ring, n, r.error))
                || (r.error.Invalid? && NoneOpens(server.list.value, server.ring, r.error.reason))
      ensures old(addresses).None? && r.Ok? ==> KeysHold(attempts, old(addressKeys), addressKeys)
      ensures r.Ok? && Opened(attempts) == [] && old(addresses).None? ==> dtos == []
    {
      if addresses.Some? {
        return Ok(addresses.value);
      }
      if server.userKeys.Err? {
        return Err(server.userKeys.error);
      }
      if server.list.Err? {
        return Err(server.list.error);
      }
      var response := server.list.value;
      ghost var tries: Attempts;
      var error, usable, broken, firstError, keys;
      error, usable, broken, firstError, keys, tries := OpenAll(response, server.ring, addressKeys);
      addressKeys := keys;
      if error.Some? {
        return Err(error.value);
      }
      if usable == [] && firstError.Some? {
        return Err(Invalid(firstError.value));
      }
      assert response[..|tries|] == response;
      Keep(response, server.ring, tries, usable, broken);
      return Ok(addresses.value);
    }

    /** Cache what opening a whole response gave. */
    method Keep(response: seq<AddressDto>, ghost rings: Rings, ghost tries: Attempts, usable: seq<Address>,
                broken: map<string, string>)
      requires Attempted(response, rings, tries) && usable == Opened(tries) && broken == Reasons(response, tries)
      modifies this
      ensures Valid() && addresses == Some(SortBy(usable, OrderOf)) && addressKeys == old(addressKeys)
      ensures dtos == response && this.rings == rings && attempts == tries
    {
      dtos, this.rings, attempts := response, rings, tries;
      failed := broken;
      defaultFailed := WhyDefaultFailed(response, broken);
      addresses := Some(SortBy(usable, OrderOf));
    }

    /** The default address is the account's own lowest-ordered one, the first in
        server order on a tie; it is handed out exactly when every address listed
        under its id opened, and no other ever stands in for it. */
    method DefaultAddress(server: Server) returns (r: Result<Address, Failure>)
      requires Valid()
      modifies this
      ensures Valid()
      ensures r.Ok? ==>
        && addresses.Some? && dtos != []
        && var m := FirstLeast(dtos, OrderOfDto);
           attempts[m].Ok? && r.value == attempts[m].value.0
      ensures addresses.Some? && dtos != [] && r.Err? ==>
                var id := dtos[FirstLeast(dtos, OrderOfDto)].id;
                id in Reasons(dtos, attempts) && r == Err(Invalid(Reasons(dtos, attempts)[id]))
      ensures addresses.Some? && dtos != [] ==>
                (r.Ok? <==> forall i :: 0 <= i < |dtos| && dtos[i].id == dtos[FirstLeast(dtos, OrderOfDto)].id ==>
                    attempts[i].Ok?)
      ensures addresses.Some? && dtos == [] ==> r == Err(Invalid("user has no address"))
    {
      var loaded := Addresses(server);
      if loaded.Err? {
        return Err(loaded.error);
      }
      if dtos != [] {
        ReasonsMean(dtos, attempts, dtos[FirstLeast(dtos, OrderOfDto)].id);
      }
      if defaultFailed.Some? {
        return Err(Invalid(defaultFailed.value));
      }
      SortedOpened(dtos, rings, attempts);
      if loaded.value == [] {
        return Err(Invalid("user has no address"));
      }
      return Ok(loaded.value[0]);
    }
  }

  /** Nothing is listed just if nothing opened; otherwise the default comes first. */
  lemma SortedOpened(dtos: seq<AddressDto>, rings: Rings, attempts: Attempts)
    requires Attempted(dtos, rings, attempts)
    ensures var sorted := SortBy(Opened(attempts), OrderOf);
      if sorted == [] then forall i :: 0 <= i < |attempts| ==> attempts[i].Err?
      else
        && dtos != []
        && var m := FirstLeast(dtos, OrderOfDto);
           attempts[m].Ok? ==> sorted[0] == attempts[m].value.0
  {
    SortByCorrect(Opened(attempts), OrderOf);
    if Opened(attempts) == [] {
      NoneOpened(dtos, rings, attempts);
    } else {
      DefaultComesFirst(dtos, rings, attempts);
    }
  }

  /** Sorted by order, the account's lowest-ordered address is in front if it opened. */
  lemma DefaultComesFirst(dtos: seq<AddressDto>, rings: Rings, attempts: Attempts)
    requires Attempted(dtos, rings, attempts) && Opened(attempts) != []
    ensures dtos != [] && SortBy(Opened(attempts), OrderOf) != []
    ensures var m := FirstLeast(dtos, OrderOfDto);
      attempts[m].Ok? ==> SortBy(Opened(attempts), OrderOf)[0] == attempts[m].value.0
  {
    SortFront(Opened(attempts), OrderOf);
    if attempts[FirstLeast(dtos, OrderOfDto)].Ok? { LeastOpens(dtos, rings, attempts); }
  }

  lemma {:induction false} NoneOpened(dtos: seq<AddressDto>, rings: Rings, attempts: Attempts)
    requires Attempted(dtos, rings, attempts) && Opened(attempts) == []
    ensures forall i :: 0 <= i < |attempts| ==> attempts[i].Err?
  {
    if attempts != [] { NoneOpened(dtos[..|dtos| - 1], rings, attempts[..|attempts| - 1]); }
  }
}
