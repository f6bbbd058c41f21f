/**
 * The token form's submit handler up to the signing call: validate the form,
 * then assemble the claims object one property at a time.
 */
module PayloadBuilder {
  import opened Wrappers
  import opened JsString
  import opened Claims

  /** Shortest secret accepted, counted in characters. */
  const MinSecretLength: nat := 32

  // Registered claim names of RFC 7519: section 4.1.1 (iss), 4.1.3 (aud),
  // 4.1.4 (exp), 4.1.5 (nbf) and 4.1.6 (iat).
  const IssuerClaim := "iss"
  const AudienceClaim := "aud"
  const NotBeforeClaim := "nbf"
  const ExpiryClaim := "exp"
  const IssuedAtClaim := "iat"
  const ScopeClaim := "urn:oauth:scope"

  // Identity claims, one of which the selector picks.
  const WindowsAccountNameClaim := "http://schemas.microsoft.com/ws/2008/06/identity/claims/windowsaccountname"
  const NameClaim := "http://schemas.xmlsoap.org/ws/2005/05/identity/claims/name"
  const EmailAddressClaim := "http://schemas.xmlsoap.org/ws/2005/05/identity/claims/emailaddress"

  // Selector values of the identity-claim drop-down.
  const WindowsAccountNameType := "windowsaccountname"
  const NameType := "name"
  const EmailAddressType := "emailaddress"

  // Object grant claims.
  const CategoryClaim := "the:ctgry"
  const CaseDefinitionClaim := "the:casedef"
  const CaseClaim := "the:case"
  const DocumentClaim := "the:doc"
  const WorkflowInstanceClaim := "the:wfinst"
  const EFormClaim := "the:eform"
  const IndexingProfileClaim := "the:ixprof"

  /** An object grant: the object's id and the permission mask, both as typed. */
  datatype Grant = Grant(id: string, perm: string)

  /** The workflow-instance grant also names a token number. */
  datatype WorkflowGrant = WorkflowGrant(id: string, token: string, perm: string)

  /**
   * The form fields as the handler reads them, untrimmed. `nbfMs` and `expMs` are
   * the millisecond epochs of the two date inputs.
   */
  datatype FormState = FormState(
    issuer: string, audience: string, secret: string, scope: string,
    includeIat: bool, identityClaimType: string,
    nbfMs: int, expMs: int,
    domain: string, username: string, userName: string, userEmail: string,
    category: Grant, caseDefinition: Grant, caseGrant: Grant, document: Grant,
    workflowInstance: WorkflowGrant, eForm: Grant, indexingProfile: Grant)

  /** The alerts that stop the handler, in the order they are checked. */
  datatype BuildError = SecretTooShort | InvalidDateRange | UsernameRequired | NameRequired | EmailRequired

  /** `Math.floor(ms / 1000)`: Dafny's division by a positive divisor already rounds down. */
  function Seconds(ms: int): (s: int)
    ensures s * 1000 <= ms < s * 1000 + 1000
  {
    ms / 1000
  }

  /** The object literal the payload starts from. */
  function RegisteredClaims(f: FormState): Payload
  {
    [ (IssuerClaim, Str(Trim(f.issuer))),
      (AudienceClaim, Str(Trim(f.audience))),
      (NotBeforeClaim, Int(Seconds(f.nbfMs))),
      (ExpiryClaim, Int(Seconds(f.expMs))),
      (ScopeClaim, Str(f.scope)) ]
  }

  /** `domain\username`, or `\username` when the domain is empty. */
  function WindowsAccountName(domain: string, username: string): string
  {
    if domain != [] then domain + "\\" + username else "\\" + username
  }

  /**
   * The identity claim the selector asks for: missing exactly when the selected
   * field is blank, otherwise one claim with an identity name; an unknown
   * selector adds none.
   */
  function IdentityClaims(f: FormState): (r: Result<Payload, BuildError>)
    ensures r == Failure(UsernameRequired) <==> f.identityClaimType == WindowsAccountNameType && AllWhiteSpace(f.username)
    ensures r == Failure(NameRequired) <==> f.identityClaimType == NameType && AllWhiteSpace(f.userName)
    ensures r == Failure(EmailRequired) <==> f.identityClaimType == EmailAddressType && AllWhiteSpace(f.userEmail)
    ensures r.Failure? ==> r.error in {UsernameRequired, NameRequired, EmailRequired}
    ensures r.Success? ==> |r.value| <= 1 && NamedFrom(r.value, IdentityNames)
    ensures r.Success? ==> (r.value == [] <==> f.identityClaimType !in {WindowsAccountNameType, NameType, EmailAddressType})
  {
    if f.identityClaimType == WindowsAccountNameType then
      var username := Trim(f.username);
      if username == [] then Failure(UsernameRequired)
      else Success([(WindowsAccountNameClaim, Str(WindowsAccountName(Trim(f.domain), username)))])
    else if f.identityClaimType == NameType then
      var name := Trim(f.userName);
      if name == [] then Failure(NameRequired) else Success([(NameClaim, Str(name))])
    else if f.identityClaimType == EmailAddressType then
      var email := Trim(f.userEmail);
      if email == [] then Failure(EmailRequired) else Success([(EmailAddressClaim, Str(email))])
    else Success([])
  }

  function IssuedAtClaims(f: FormState, nowMs: int): Payload
  {
    if f.includeIat then [(IssuedAtClaim, Int(Seconds(nowMs)))] else []
  }


  /** A grant's value `id:perm`, present when both fields are non-empty. */
  function GrantValue(g: Grant): Option<string>
  {
    if g.id != [] && g.perm != [] then Some(g.id + ":" + g.perm) else None
  }

  /** The workflow-instance value `id:token:perm`, with token `0` when left empty. */
  function WorkflowValue(w: WorkflowGrant): Option<string>
  {
    if w.id != [] && w.perm != [] then Some(w.id + ":" + (if w.token != [] then w.token else "0") + ":" + w.perm)
    else None
  }

  /** One grant slot: its claim name and the value it contributes, if any. */
  datatype Slot = Slot(name: string, value: Option<string>)

  function SlotClaim(s: Slot): Payload
  {
    if s.value.Some? then [(s.name, Str(s.value.value))] else []
  }

  /** The claims of a run of slots, in order. */
  function SlotClaims(slots: seq<Slot>): Payload
  {
    if slots == [] then [] else SlotClaims(slots[..|slots| - 1]) + SlotClaim(slots[|slots| - 1])
  }

  /** The seven grant slots in the order the handler visits them. */
  function GrantSlots(f: FormState): seq<Slot>
  {
    [ Slot(CategoryClaim, GrantValue(f.category)),
      Slot(CaseDefinitionClaim, GrantValue(f.caseDefinition)),
      Slot(CaseClaim, GrantValue(f.caseGrant)),
      Slot(DocumentClaim, GrantValue(f.document)),
      Slot(WorkflowInstanceClaim, WorkflowValue(f.workflowInstance)),
      Slot(EFormClaim, GrantValue(f.eForm)),
      Slot(IndexingProfileClaim, GrantValue(f.indexingProfile)) ]
  }

  function GrantClaims(f: FormState): Payload
  {
    SlotClaims(GrantSlots(f))
  }

  /**
   * What the handler produces for a form submitted at `nowMs`: the first failing
   * check, or the registered claims, the identity claim, `iat` and the grants in
   * that order.
   */
  function ExpectedPayload(f: FormState, nowMs: int): (r: Result<Payload, BuildError>)
    ensures r.Success? ==> UniqueKeys(r.value)
  {
    if |f.secret| < MinSecretLength then Failure(SecretTooShort)
    else if f.expMs <= f.nbfMs then Failure(InvalidDateRange)
    else
      match IdentityClaims(f)
      case Failure(e) => Failure(e)
      case Success(identity) =>
        HeadNamed(f, nowMs);
        GrantsKeepKeysUnique(RegisteredClaims(f) + identity + IssuedAtClaims(f, nowMs), f);
        Success(RegisteredClaims(f) + identity + IssuedAtClaims(f, nowMs) + GrantClaims(f))
  }

  // Which names each part of the payload may use.

  const RegisteredNames: set<string> := {IssuerClaim, AudienceClaim, NotBeforeClaim, ExpiryClaim, ScopeClaim}

  const IdentityNames: set<string> := {WindowsAccountNameClaim, NameClaim, EmailAddressClaim}

  /** The names the payload may hold before the grants are added. */
  const HeadNames: set<string> := RegisteredNames + IdentityNames + {IssuedAtClaim}

  const GrantNames: set<string> := {CategoryClaim, CaseDefinitionClaim, CaseClaim, DocumentClaim,
    WorkflowInstanceClaim, EFormClaim, IndexingProfileClaim}

  /** The registered, identity, `iat` and grant names never coincide. */
  lemma NameSetsDisjoint()
    ensures RegisteredNames !! IdentityNames
    ensures IssuedAtClaim !in RegisteredNames + IdentityNames
    ensures HeadNames !! GrantNames
  {
  }

  /** The seven grant slots have different names, all of them grant names. */
  lemma GrantSlotsDistinct(f: FormState)
    ensures forall a, b :: 0 <= a < b < |GrantSlots(f)| ==> GrantSlots(f)[a].name != GrantSlots(f)[b].name
    ensures forall j :: 0 <= j < |GrantSlots(f)| ==> GrantSlots(f)[j].name in GrantNames
  {
  }

  // The payload before the grants.

  /** The identity part of the switch: the selected claim, if any, for a payload holding the registered claims. */
  method AssignIdentity(payload: Payload, f: FormState) returns (r: Result<Payload, BuildError>)
    requires NamedFrom(payload, RegisteredNames)
    ensures IdentityClaims(f).Failure? ==> r == Failure(IdentityClaims(f).error)
    ensures IdentityClaims(f).Success? ==> r == Success(payload + IdentityClaims(f).value)
  {
    NameSetsDisjoint();
    if f.identityClaimType == WindowsAccountNameType {
      var domain := Trim(f.domain);
      var username := Trim(f.username);
      if username == [] {
        return Failure(UsernameRequired);
      }
      var fullUsername := if domain != [] then domain + "\\" + username else "\\" + username;
      AbsentName(payload, RegisteredNames, WindowsAccountNameClaim);
      PutAbsent(payload, WindowsAccountNameClaim, Str(fullUsername));
      r := Success(Put(payload, WindowsAccountNameClaim, Str(fullUsername)));
    } else if f.identityClaimType == NameType {
      var userName := Trim(f.userName);
      if userName == [] {
        return Failure(NameRequired);
      }
      AbsentName(payload, RegisteredNames, NameClaim);
      PutAbsent(payload, NameClaim, Str(userName));
      r := Success(Put(payload, NameClaim, Str(userName)));
    } else if f.identityClaimType == EmailAddressType {
      var userEmail := Trim(f.userEmail);
      if userEmail == [] {
        return Failure(EmailRequired);
      }
      AbsentName(payload, RegisteredNames, EmailAddressClaim);
      PutAbsent(payload, EmailAddressClaim, Str(userEmail));
      r := Success(Put(payload, EmailAddressClaim, Str(userEmail)));
    } else {
      assert payload + [] == payload;
      r := Success(payload);
    }
  }

  /** Each part before the grants uses only its own names and repeats none. */
  lemma HeadPartsNamed(f: FormState, nowMs: int)
    requires IdentityClaims(f).Success?
    ensures NamedFrom(RegisteredClaims(f), RegisteredNames) && UniqueKeys(RegisteredClaims(f))
    ensures UniqueKeys(IdentityClaims(f).value)
    ensures NamedFrom(IssuedAtClaims(f, nowMs), {IssuedAtClaim}) && UniqueKeys(IssuedAtClaims(f, nowMs))
  {
    RegisteredNamed(f);
    AtMostOneUnique(IdentityClaims(f).value);
    AtMostOneUnique(IssuedAtClaims(f, nowMs));
  }

  lemma RegisteredNamed(f: FormState)
    ensures NamedFrom(RegisteredClaims(f), RegisteredNames) && UniqueKeys(RegisteredClaims(f))
  {
  }

  lemma AtMostOneUnique(p: Payload)
    requires |p| <= 1
    ensures UniqueKeys(p)
  {
  }

  /** The payload before the grants repeats no key and uses only the head names. */
  lemma HeadNamed(f: FormState, nowMs: int)
    requires IdentityClaims(f).Success?
    ensures var h := RegisteredClaims(f) + IdentityClaims(f).value;
      && NamedFrom(h, RegisteredNames + IdentityNames)
      && UniqueKeys(h + IssuedAtClaims(f, nowMs))
      && NamedFrom(h + IssuedAtClaims(f, nowMs), HeadNames)
  {
    var r, i, t := RegisteredClaims(f), IdentityClaims(f).value, IssuedAtClaims(f, nowMs);
    HeadPartsNamed(f, nowMs);
    NameSetsDisjoint();
    NamedFromWiden(r, RegisteredNames, RegisteredNames + IdentityNames);
    NamedFromWiden(i, IdentityNames, RegisteredNames + IdentityNames);
    NamedFromAppend(r, i, RegisteredNames + IdentityNames);
    UniqueAppend(r, i, RegisteredNames, IdentityNames);
    UniqueAppend(r + i, t, RegisteredNames + IdentityNames, {IssuedAtClaim});
    NamedFromWiden(r + i, RegisteredNames + IdentityNames, HeadNames);
    NamedFromWiden(t, {IssuedAtClaim}, HeadNames);
    NamedFromAppend(r + i, t, HeadNames);
  }

  // The grants.

  /** A slot run names only its slots' names. */
  lemma {:induction false} SlotClaimsNamed(slots: seq<Slot>, names: set<string>)
    requires forall i :: 0 <= i < |slots| ==> slots[i].name in names
    ensures NamedFrom(SlotClaims(slots), names)
  {
    if slots != [] {
      var init := slots[..|slots| - 1];
      SlotClaimsNamed(init, names);
      NamedFromAppend(SlotClaims(init), SlotClaim(slots[|slots| - 1]), names);
    }
  }

  /** The names of the first `k` slots. */
  ghost function SlotNames(slots: seq<Slot>, k: nat): set<string>
    requires k <= |slots|
  {
    set j | 0 <= j < k :: slots[j].name
  }

  /**
   * When grant slot `k` is reached, its name is not yet a key: the payload so far
   * holds only head names and those of earlier slots.
   */
  lemma GrantNameAbsent(start: Payload, f: FormState, k: nat)
    requires NamedFrom(start, HeadNames) && k < 7
    ensures !HasKey(start + SlotClaims(GrantSlots(f)[..k]), GrantSlots(f)[k].name)
  {
    var slots := GrantSlots(f);
    var name := slots[k].name;
    var done := slots[..k];
    NameSetsDisjoint();
    GrantSlotsDistinct(f);
    SlotClaimsNamed(done, SlotNames(slots, k));
    AbsentName(start, HeadNames, name);
    AbsentName(SlotClaims(done), SlotNames(slots, k), name);
    HasKeyAppend(start, SlotClaims(done), name);
  }

  /** One more slot handled: the payload grows by that slot's claim. */
  lemma SlotClaimsStep(start: Payload, updated: Payload, slots: seq<Slot>, k: nat)
    requires k < |slots|
    requires updated == start + SlotClaims(slots[..k]) + SlotClaim(slots[k])
    ensures updated == start + SlotClaims(slots[..k + 1])
  {
    var pre := slots[..k + 1];
    assert pre[..k] == slots[..k];
    assert start + SlotClaims(slots[..k]) + SlotClaim(slots[k]) == start + (SlotClaims(slots[..k]) + SlotClaim(slots[k]));
  }

  /** Grant slot `k` handled: its claim, if any, is appended. */
  lemma GrantStep(payload: Payload, start: Payload, f: FormState, k: nat)
    requires NamedFrom(start, HeadNames) && k < 7
    requires payload == start + SlotClaims(GrantSlots(f)[..k])
    ensures var s := GrantSlots(f)[k];
      (if s.value.Some? then Put(payload, s.name, Str(s.value.value)) else payload)
        == start + SlotClaims(GrantSlots(f)[..k + 1])
  {
    var s := GrantSlots(f)[k];
    GrantNameAbsent(start, f, k);
    if s.value.Some? {
      assert Put(payload, s.name, Str(s.value.value)) == payload + SlotClaim(s);
    }
    SlotClaimsStep(start, if s.value.Some? then payload + SlotClaim(s) else payload, GrantSlots(f), k);
  }

  /** `if (id && perm) payload[name] = `${id}:${perm}`` for grant slot `k`. */
  method AssignGrant(payload: Payload, ghost start: Payload, f: FormState, k: nat, name: string, g: Grant)
    returns (updated: Payload)
    requires k < 7 && GrantSlots(f)[k] == Slot(name, GrantValue(g))
    requires NamedFrom(start, HeadNames) && payload == start + SlotClaims(GrantSlots(f)[..k])
    ensures updated == start + SlotClaims(GrantSlots(f)[..k + 1])
  {
    GrantStep(payload, start, f, k);
    updated := payload;
    if g.id != [] && g.perm != [] {
      updated := Put(updated, name, Str(g.id + ":" + g.perm));
    }
  }

  /** The workflow-instance slot: `id:token:perm`, with token `0` when empty. */
  method AssignWorkflowGrant(payload: Payload, ghost start: Payload, f: FormState) returns (updated: Payload)
    requires NamedFrom(start, HeadNames) && payload == start + SlotClaims(GrantSlots(f)[..4])
    ensures updated == start + SlotClaims(GrantSlots(f)[..5])
  {
    GrantStep(payload, start, f, 4);
    var w := f.workflowInstance;
    updated := payload;
    if w.id != [] && w.perm != [] {
      var tokenNo := if w.token != [] then w.token else "0";
      updated := Put(updated, WorkflowInstanceClaim, Str(w.id + ":" + tokenNo + ":" + w.perm));
    }
  }

  /** Slots with distinct names give claims with distinct keys. */
  lemma {:induction false} SlotClaimsUnique(slots: seq<Slot>)
    requires forall a, b :: 0 <= a < b < |slots| ==> slots[a].name != slots[b].name
    ensures UniqueKeys(SlotClaims(slots))
  {
    if slots != [] {
      var n := |slots| - 1;
      var init := slots[..n];
      SlotClaimsUnique(init);
      SlotClaimsNamed(init, SlotNames(slots, n));
      UniqueAppend(SlotClaims(init), SlotClaim(slots[n]), SlotNames(slots, n), {slots[n].name});
    }
  }

  /** The grant claims only use grant names. */
  lemma GrantClaimsNamed(f: FormState)
    ensures NamedFrom(GrantClaims(f), GrantNames)
  {
    GrantSlotsDistinct(f);
    SlotClaimsNamed(GrantSlots(f), GrantNames);
  }

  /** The grants added to a payload named from `HeadNames` repeat no key. */
  lemma GrantsKeepKeysUnique(start: Payload, f: FormState)
    requires UniqueKeys(start) && NamedFrom(start, HeadNames)
    ensures UniqueKeys(start + GrantClaims(f))
  {
    NameSetsDisjoint();
    GrantSlotsDistinct(f);
    SlotClaimsUnique(GrantSlots(f));
    GrantClaimsNamed(f);
    UniqueAppend(start, GrantClaims(f), HeadNames, GrantNames);
  }

  /** The object-permission part of the handler: the seven grant slots in order. */
  method AssignGrants(payload: Payload, f: FormState) returns (updated: Payload)
    requires UniqueKeys(payload) && NamedFrom(payload, HeadNames)
    ensures updated == payload + GrantClaims(f)
    ensures UniqueKeys(updated)
  {
    assert payload == payload + SlotClaims(GrantSlots(f)[..0]);
    updated := AssignGrant(payload, payload, f, 0, CategoryClaim, f.category);
    updated := AssignGrant(updated, payload, f, 1, CaseDefinitionClaim, f.caseDefinition);
    updated := AssignGrant(updated, payload, f, 2, CaseClaim, f.caseGrant);
    updated := AssignGrant(updated, payload, f, 3, DocumentClaim, f.document);
    updated := AssignWorkflowGrant(updated, payload, f);
    updated := AssignGrant(updated, payload, f, 5, EFormClaim, f.eForm);
    updated := AssignGrant(updated, payload, f, 6, IndexingProfileClaim, f.indexingProfile);
    assert GrantSlots(f)[..7] == GrantSlots(f);
    GrantsKeepKeysUnique(payload, f);
  }

  /**
   * The submit handler's validation and payload assembly (the signing call is
   * separate): the checks in order, then each property assigned in turn.
   */
  method BuildPayload(f: FormState, nowMs: int) returns (r: Result<Payload, BuildError>)
    ensures r == ExpectedPayload(f, nowMs)
    ensures r.Success? ==> UniqueKeys(r.value)
  {
    var issuer := Trim(f.issuer);
    var audience := Trim(f.audience);
    if |f.secret| < MinSecretLength {
      return Failure(SecretTooShort);
    }
    if f.expMs <= f.nbfMs {
      return Failure(InvalidDateRange);
    }
    var payload: Payload := [
      (IssuerClaim, Str(issuer)),
      (AudienceClaim, Str(audience)),
      (NotBeforeClaim, Int(f.nbfMs / 1000)),
      (ExpiryClaim, Int(f.expMs / 1000)),
      (ScopeClaim, Str(f.scope))];
    assert payload == RegisteredClaims(f) && NamedFrom(payload, RegisteredNames);

    var identity := AssignIdentity(payload, f);
    if identity.Failure? {
      return Failure(identity.error);
    }
    payload := identity.value;
    HeadNamed(f, nowMs);

    if f.includeIat {
      AbsentName(payload, RegisteredNames + IdentityNames, IssuedAtClaim);
      payload := Put(payload, IssuedAtClaim, Int(nowMs / 1000));
    }
    assert payload == RegisteredClaims(f) + IdentityClaims(f).value + IssuedAtClaims(f, nowMs);

    payload := AssignGrants(payload, f);
    return Success(payload);
  }

  // Properties of the payload the handler produces.

  /**
   * The checks run in order and the first failure wins: a short secret is
   * reported whatever the dates, a bad date range only with a long enough
   * secret, and a missing identity field only after both.
   */
  lemma ValidationOrder(f: FormState, nowMs: int)
    ensures var r := ExpectedPayload(f, nowMs);
      var datesOk := |f.secret| >= MinSecretLength && f.expMs > f.nbfMs;
      && (r == Failure(SecretTooShort) <==> |f.secret| < MinSecretLength)
      && (r == Failure(InvalidDateRange) <==> |f.secret| >= MinSecretLength && f.expMs <= f.nbfMs)
      && (r == Failure(UsernameRequired) <==>
            datesOk && f.identityClaimType == WindowsAccountNameType && AllWhiteSpace(f.username))
      && (r == Failure(NameRequired) <==> datesOk && f.identityClaimType == NameType && AllWhiteSpace(f.userName))
      && (r == Failure(EmailRequired) <==>
            datesOk && f.identityClaimType == EmailAddressType && AllWhiteSpace(f.userEmail))
  {
  }

  /**
   * Where a name is looked up in an accepted payload: registered names in the
   * registered claims, identity names in the identity part, `iat` in its own
   * part and grant names in the grants.
   */
  lemma AcceptedLookup(f: FormState, nowMs: int, k: string)
    requires ExpectedPayload(f, nowMs).Success?
    ensures var p, r, i, t := ExpectedPayload(f, nowMs).value, RegisteredClaims(f), IdentityClaims(f).value,
        IssuedAtClaims(f, nowMs);
      && (k in RegisteredNames ==> Lookup(p, k) == Lookup(r, k))
      && (k in IdentityNames ==> Lookup(p, k) == Lookup(i, k))
      && (k == IssuedAtClaim ==> Lookup(p, k) == Lookup(t, k))
      && (k in GrantNames ==> Lookup(p, k) == Lookup(GrantClaims(f), k))
  {
    var r, i, t, g := RegisteredClaims(f), IdentityClaims(f).value, IssuedAtClaims(f, nowMs), GrantClaims(f);
    HeadPartsNamed(f, nowMs);
    HeadNamed(f, nowMs);
    GrantClaimsNamed(f);
    NameSetsDisjoint();
    if k in HeadNames {
      LookupBefore(r + i + t, g, GrantNames, k);
      if k == IssuedAtClaim {
        LookupSkip(r + i, t, RegisteredNames + IdentityNames, k);
      } else {
        LookupBefore(r + i, t, {IssuedAtClaim}, k);
        if k in RegisteredNames {
          LookupBefore(r, i, IdentityNames, k);
        } else {
          LookupSkip(r, i, RegisteredNames, k);
        }
      }
    } else if k in GrantNames {
      LookupSkip(r + i + t, g, HeadNames, k);
    }
  }

  /** The five registered claims read back as the trimmed or converted form fields. */
  lemma RegisteredLookup(f: FormState)
    ensures var r := RegisteredClaims(f);
      && Lookup(r, IssuerClaim) == Some(Str(Trim(f.issuer)))
      && Lookup(r, AudienceClaim) == Some(Str(Trim(f.audience)))
      && Lookup(r, NotBeforeClaim) == Some(Int(f.nbfMs / 1000))
      && Lookup(r, ExpiryClaim) == Some(Int(f.expMs / 1000))
      && Lookup(r, ScopeClaim) == Some(Str(f.scope))
  {
    var r := RegisteredClaims(f);
    IndexOfIs(r, IssuerClaim, 0);
    IndexOfIs(r, AudienceClaim, 1);
    IndexOfIs(r, NotBeforeClaim, 2);
    IndexOfIs(r, ExpiryClaim, 3);
    IndexOfIs(r, ScopeClaim, 4);
  }

  /**
   * An accepted payload carries `iss`, `aud`, `nbf` and `exp` (floored to whole
   * seconds, with `exp` not before `nbf`) and the scope; `iat`, the submit time in
   * whole seconds, is there exactly when it was asked for.
   */
  lemma AcceptedPayloadClaims(f: FormState, nowMs: int)
    requires ExpectedPayload(f, nowMs).Success?
    ensures var p := ExpectedPayload(f, nowMs).value;
      && Lookup(p, IssuerClaim) == Some(Str(Trim(f.issuer)))
      && Lookup(p, AudienceClaim) == Some(Str(Trim(f.audience)))
      && Lookup(p, NotBeforeClaim) == Some(Int(f.nbfMs / 1000))
      && Lookup(p, ExpiryClaim) == Some(Int(f.expMs / 1000))
      && Lookup(p, ScopeClaim) == Some(Str(f.scope))
      && f.expMs / 1000 >= f.nbfMs / 1000
      && (HasKey(p, IssuedAtClaim) <==> f.includeIat)
      && (f.includeIat ==> Lookup(p, IssuedAtClaim) == Some(Int(nowMs / 1000)))
  {
    RegisteredLookup(f);
    AcceptedLookup(f, nowMs, IssuerClaim);
    AcceptedLookup(f, nowMs, AudienceClaim);
    AcceptedLookup(f, nowMs, NotBeforeClaim);
    AcceptedLookup(f, nowMs, ExpiryClaim);
    AcceptedLookup(f, nowMs, ScopeClaim);
    AcceptedLookup(f, nowMs, IssuedAtClaim);
    var p := ExpectedPayload(f, nowMs).value;
    assert HasKey(p, IssuedAtClaim) <==> Lookup(p, IssuedAtClaim).Some?;
  }

  /**
   * At most one identity claim appears and it is the one the selector names;
   * an unknown selector adds none. The Windows account is `domain\username`,
   * or `\username` when the trimmed domain is empty.
   */
  lemma IdentityClaimFollowsSelector(f: FormState, nowMs: int)
    requires ExpectedPayload(f, nowMs).Success?
    ensures var p := ExpectedPayload(f, nowMs).value;
      var domain, username := Trim(f.domain), Trim(f.username);
      && (f.identityClaimType == WindowsAccountNameType <==> HasKey(p, WindowsAccountNameClaim))
      && (f.identityClaimType == NameType <==> HasKey(p, NameClaim))
      && (f.identityClaimType == EmailAddressType <==> HasKey(p, EmailAddressClaim))
      && (f.identityClaimType == WindowsAccountNameType ==>
            username != [] &&
            Lookup(p, WindowsAccountNameClaim)
              == Some(Str(if domain != [] then domain + "\\" + username else "\\" + username)))
      && (f.identityClaimType == NameType ==>
            Trim(f.userName) != [] && Lookup(p, NameClaim) == Some(Str(Trim(f.userName))))
      && (f.identityClaimType == EmailAddressType ==>
            Trim(f.userEmail) != [] && Lookup(p, EmailAddressClaim) == Some(Str(Trim(f.userEmail))))
  {
    var p, i := ExpectedPayload(f, nowMs).value, IdentityClaims(f).value;
    AcceptedLookup(f, nowMs, WindowsAccountNameClaim);
    AcceptedLookup(f, nowMs, NameClaim);
    AcceptedLookup(f, nowMs, EmailAddressClaim);
    assert HasKey(p, WindowsAccountNameClaim) <==> Lookup(p, WindowsAccountNameClaim).Some?;
    assert HasKey(p, NameClaim) <==> Lookup(p, NameClaim).Some?;
    assert HasKey(p, EmailAddressClaim) <==> Lookup(p, EmailAddressClaim).Some?;
    if i != [] {
      LookupSingle(i[0].0, i[0].1, WindowsAccountNameClaim);
      LookupSingle(i[0].0, i[0].1, NameClaim);
      LookupSingle(i[0].0, i[0].1, EmailAddressClaim);
    }
  }

  /** With distinct names, each slot's name reads back as that slot's value, or is absent. */
  lemma {:induction false} LookupSlotClaims(slots: seq<Slot>, i: nat)
    requires forall a, b :: 0 <= a < b < |slots| ==> slots[a].name != slots[b].name
    requires i < |slots|
    ensures Lookup(SlotClaims(slots), slots[i].name)
      == if slots[i].value.Some? then Some(Str(slots[i].value.value)) else None
  {
    var n := |slots| - 1;
    var init := slots[..n];
    var k := slots[i].name;
    LookupAppend(SlotClaims(init), SlotClaim(slots[n]), k);
    if i == n {
      SlotClaimsNamed(init, SlotNames(slots, n));
      AbsentName(SlotClaims(init), SlotNames(slots, n), k);
    } else {
      LookupSlotClaims(init, i);
    }
  }

  /** Grant slot `j` reads back from the grant claims as its own value. */
  lemma GrantLookup(f: FormState, j: nat)
    requires j < 7
    ensures var s := GrantSlots(f)[j];
      Lookup(GrantClaims(f), s.name) == if s.value.Some? then Some(Str(s.value.value)) else None
  {
    GrantSlotsDistinct(f);
    LookupSlotClaims(GrantSlots(f), j);
  }

  /**
   * Each grant claim is present exactly when both its id and permission are
   * non-empty (they are not trimmed), with value `id:perm`; the workflow
   * instance's is `id:token:perm` with token `0` when empty.
   */
  lemma GrantClaimsPresent(f: FormState, nowMs: int)
    requires ExpectedPayload(f, nowMs).Success?
    ensures var p := ExpectedPayload(f, nowMs).value;
      var w := f.workflowInstance;
      && Lookup(p, CategoryClaim) == (if f.category.id != [] && f.category.perm != []
           then Some(Str(f.category.id + ":" + f.category.perm)) else None)
      && Lookup(p, CaseDefinitionClaim) == (if f.caseDefinition.id != [] && f.caseDefinition.perm != []
           then Some(Str(f.caseDefinition.id + ":" + f.caseDefinition.perm)) else None)
      && Lookup(p, CaseClaim) == (if f.caseGrant.id != [] && f.caseGrant.perm != []
           then Some(Str(f.caseGrant.id + ":" + f.caseGrant.perm)) else None)
      && Lookup(p, DocumentClaim) == (if f.document.id != [] && f.document.perm != []
           then Some(Str(f.document.id + ":" + f.document.perm)) else None)
      && Lookup(p, WorkflowInstanceClaim) == (if w.id != [] && w.perm != []
           then Some(Str(w.id + ":" + (if w.token == [] then "0" else w.token) + ":" + w.perm)) else None)
      && Lookup(p, EFormClaim) == (if f.eForm.id != [] && f.eForm.perm != []
           then Some(Str(f.eForm.id + ":" + f.eForm.perm)) else None)
      && Lookup(p, IndexingProfileClaim) == (if f.indexingProfile.id != [] && f.indexingProfile.perm != []
           then Some(Str(f.indexingProfile.id + ":" + f.indexingProfile.perm)) else None)
  {
    AcceptedLookup(f, nowMs, CategoryClaim);
    AcceptedLookup(f, nowMs, CaseDefinitionClaim);
    AcceptedLookup(f, nowMs, CaseClaim);
    AcceptedLookup(f, nowMs, DocumentClaim);
    AcceptedLookup(f, nowMs, WorkflowInstanceClaim);
    AcceptedLookup(f, nowMs, EFormClaim);
    AcceptedLookup(f, nowMs, IndexingProfileClaim);
    GrantLookup(f, 0);
    GrantLookup(f, 1);
    GrantLookup(f, 2);
    GrantLookup(f, 3);
    GrantLookup(f, 4);
    GrantLookup(f, 5);
    GrantLookup(f, 6);
  }
}
