/** Whose item it is: what the executor writes into a broker item, read back by the fence.
    `OppositeExposureFence` gives an item one owner; this shows that the three ways in which
    the program recognises an item come to that. */
module FenceIdentity {
  import opened Common
  import opened Text
  import opened TradePlanOwnership

  /** A live plan as the fence knows it; `legacy` is the hash token of its id. */
  datatype LivePlan = LivePlan(planId: string, legacy: string, legIds: seq<string>)

  /** Ids, comment tokens and recorded client order ids of the live plans. */
  datatype Claims = Claims(planIds: set<string>, planTokens: set<string>, clientOrderIds: set<string>)

  function PlanTokens(plan: LivePlan): set<string> {
    var go := EncodeGoPlanId(plan.planId);
    {plan.legacy} + if go.Some? then {go.value} else {}
  }

  function ClientOrderIds(plan: LivePlan): set<string> {
    set i | 0 <= i < |plan.legIds| :: FormatClientOrderId(plan.planId, plan.legIds[i], plan.legacy)
  }

  function ClaimsOf(live: seq<LivePlan>): Claims {
    if live == [] then Claims({}, {}, {})
    else
      var n := |live| - 1;
      var rest := ClaimsOf(live[..n]);
      Claims(rest.planIds + {live[n].planId}, rest.planTokens + PlanTokens(live[n]),
             rest.clientOrderIds + ClientOrderIds(live[n]))
  }

  function ParseCompactToken(comment: string): Option<string> {
    var parts := Split(comment, '|');
    if !IsBlank(comment) && |parts| == 3 && parts[0] == "v8c" && !IsBlank(parts[1]) && NormalizeLegId(parts[2]).Some?
    then Some(parts[1]) else None
  }

  /** The recorded client order id, then the full ownership, then the comment's plan token. */
  predicate OwnsIdentity(claims: Claims, comment: string, clientOrderId: string) {
    || (!IsBlank(clientOrderId) && clientOrderId in claims.clientOrderIds)
    || (var owner := ParseOwnership(comment, clientOrderId);
        owner.Some? && owner.value.planId in claims.planIds)
    || (var token := ParseCompactToken(comment);
        token.Some? && token.value in claims.planTokens)
  }

  /** An id the executor writes: a Go id in lower case, or any other that is not blank. */
  predicate Exact(planId: string, legacy: string) {
    IsLegacyToken(legacy) && !IsBlank(planId) && (IsGoPlanId(planId) ==> LowerHash(planId))
  }

  predicate Known(plan: LivePlan) {
    Exact(plan.planId, plan.legacy) && forall i :: 0 <= i < |plan.legIds| ==> CanonicalLeg(plan.legIds[i])
  }

  lemma {:induction false} ClaimsMean(live: seq<LivePlan>, s: string)
    ensures s in ClaimsOf(live).planIds <==> exists i :: 0 <= i < |live| && live[i].planId == s
    ensures s in ClaimsOf(live).planTokens <==> exists i :: 0 <= i < |live| && s in PlanTokens(live[i])
    ensures s in ClaimsOf(live).clientOrderIds <==> exists i :: 0 <= i < |live| && s in ClientOrderIds(live[i])
  {
    hide PlanTokens, ClientOrderIds;
    if live != [] {
      var n := |live| - 1;
      ClaimsMean(live[..n], s);
      assert forall i :: 0 <= i < n ==> live[..n][i] == live[i];
    }
  }

  // ----- comment tokens ---------------------------------------------------------------------------

  lemma TokenFree(planId: string, legacy: string)
    requires Exact(planId, legacy)
    ensures
      var token := PlanToken(planId, legacy);
      Free(token, '|') && !IsBlank(token) && |token| == (if IsGoPlanId(planId) then 43 else 24)
  {
    hide EncodeGoPlanId, DecodeGoPlanToken, IsGoPlanId, LowerHash;
    EncodesExactlyGo(planId);
    if IsGoPlanId(planId) {
      EncodeDecode(planId);
      TokenNotBlank(planId);
    } else {
      LegacyFree(legacy);
      assert !IsSpace(legacy[0]);
    }
  }

  /** A blank token would decode to nothing. */
  lemma TokenNotBlank(planId: string)
    requires IsGoPlanId(planId)
    ensures !IsBlank(EncodeGoPlanId(planId).value)
  {
    hide ToBase64, FromHex, TrimEquals;
    var plain := TrimEquals(ToBase64(FromHex(planId[|GO_PREFIX|..])));
    TrimmedBase64(FromHex(planId[|GO_PREFIX|..]));
    EncodeDecode(planId);
    assert Sextet(plain[0]).Some?;
    assert !IsSpace(UrlSafe(plain)[0]);
  }

  /** A written comment yields its token. */
  lemma CommentToken(planId: string, legId: string, legacy: string)
    requires Exact(planId, legacy) && CanonicalLeg(legId)
    ensures ParseCompactToken(FormatComment(planId, legId, legacy)) == Some(PlanToken(planId, legacy))
  {
    hide PlanToken, NormalizeLegId, CanonicalLeg, Split, Exact, IsBlank;
    TokenFree(planId, legacy);
    CanonicalIsFixed(legId);
    CompactCommentParts(PlanToken(planId, legacy), legId);
    NotBlank(FormatComment(planId, legId, legacy));
  }

  lemma NotBlank(s: string)
    requires s != [] && s[0] == 'v'
    ensures !IsBlank(s)
  {
    assert !IsSpace(s[0]);
  }

  /** Two plans share a comment token exactly when they are one plan, or both go by a hash and
      the hashes agree. */
  lemma TokensMeet(planId: string, legacy: string, other: LivePlan)
    requires Exact(planId, legacy) && Known(other)
    ensures PlanToken(planId, legacy) in PlanTokens(other) <==>
      if IsGoPlanId(planId) then other.planId == planId else other.legacy == legacy
  {
    hide EncodeGoPlanId, DecodeGoPlanToken, IsGoPlanId, LowerHash;
    EncodesExactlyGo(planId);
    EncodesExactlyGo(other.planId);
    TokenFree(planId, legacy);
    TokenFree(other.planId, other.legacy);
    if IsGoPlanId(planId) && IsGoPlanId(other.planId) {
      EncodeDecode(planId);
      EncodeDecode(other.planId);
      LowerHashUnchanged(planId);
      LowerHashUnchanged(other.planId);
    }
  }

  // ----- client order ids -----------------------------------------------------------------------------

  /** The id is too long for the short form, and no Go plan's. */
  predicate Hashed(planId: string, legId: string) { !FitsPlain(planId, legId) && !IsGoPlanId(planId) }

  lemma ExactWritable(planId: string, legId: string, legacy: string)
    requires Exact(planId, legacy) && CanonicalLeg(legId)
    ensures Writable(planId, legId) <==> !Hashed(planId, legId)
  {}

  lemma HashedForm(planId: string, legId: string, legacy: string)
    requires Exact(planId, legacy) && CanonicalLeg(legId) && Hashed(planId, legId)
    ensures
      var id := FormatClientOrderId(planId, legId, legacy);
      && id == "h" + legacy + "." + legId && Free(id, ':') && id[1..25] == legacy
      && ParseClientOrderId(id).None?
  {
    hide EncodeGoPlanId, DecodeGoPlanToken, IsGoPlanId, LowerHash, CanonicalLeg, LastIndexOf, NormalizeLegId;
    EncodesExactlyGo(planId);
    CanonicalIsFixed(legId);
    var id := "h" + legacy + "." + legId;
    assert Free(legacy, ':');
    assert Free(id, ':');
    var at := LastIndexOf(id, ':');
    assert at < 0;
  }

  lemma WritableForm(planId: string, legId: string, legacy: string)
    requires Writable(planId, legId)
    ensures
      var id := FormatClientOrderId(planId, legId, legacy);
      !Free(id, ':') || id[0] == 'g'
  {
    hide CanonicalLeg, LowerHash;
    EncodesExactlyGo(planId);
    if FitsPlain(planId, legId) {
      assert FormatClientOrderId(planId, legId, legacy)[|planId|] == ':';
    }
  }

  /** Two written client order ids agree only for one plan, or for two hashed ones whose hashes
      agree. */
  lemma ClientOrderIdsMeet(
    planA: string, legA: string, legacyA: string, planB: string, legB: string, legacyB: string)
    requires Exact(planA, legacyA) && Exact(planB, legacyB) && CanonicalLeg(legA) && CanonicalLeg(legB)
    requires FormatClientOrderId(planA, legA, legacyA) == FormatClientOrderId(planB, legB, legacyB)
    ensures planA == planB || (!IsGoPlanId(planA) && legacyA == legacyB)
  {
    hide FormatClientOrderId, CanonicalLeg, IsGoPlanId, LowerHash, FitsPlain, Exact, Writable;
    ExactWritable(planA, legA, legacyA);
    ExactWritable(planB, legB, legacyB);
    if Hashed(planA, legA) {
      HashedForm(planA, legA, legacyA);
    } else {
      WritableForm(planA, legA, legacyA);
    }
    if Hashed(planB, legB) {
      HashedForm(planB, legB, legacyB);
    } else {
      WritableForm(planB, legB, legacyB);
    }
    if !Hashed(planA, legA) && !Hashed(planB, legB) {
      ClientOrderIdsNeverCollide(planA, legA, legacyA, planB, legB, legacyB);
    }
  }

  // ----- ownership ----------------------------------------------------------------------------------------

  /** What the full ownership of a written item says: its plan, or nothing for a hashed one. */
  lemma WrittenOwner(planId: string, legId: string, legacy: string)
    requires Exact(planId, legacy) && CanonicalLeg(legId)
    ensures
      var owner := ParseOwnership(FormatComment(planId, legId, legacy), FormatClientOrderId(planId, legId, legacy));
      if Hashed(planId, legId) then owner == None else owner == Some(Owner(planId, "", legId))
  {
    hide FormatClientOrderId, ParseClientOrderId, ParseComment, CanonicalLeg, LowerHash, IsBlank, FitsPlain, IsGoPlanId,
      EncodeGoPlanId;
    EncodesExactlyGo(planId);
    if IsGoPlanId(planId) {
      GoCommentRoundTrip(planId, legId, legacy);
    } else {
      LegacyTokenIsNoGoPlan(legacy, legId, FormatClientOrderId(planId, legId, legacy));
      if Hashed(planId, legId) {
        HashedForm(planId, legId, legacy);
      } else {
        WritableRoundTrip(planId, legId, legacy);
      }
    }
  }

  /** The live plan stands for items of this plan. */
  predicate StandsFor(other: LivePlan, planId: string, legacy: string) {
    other.planId == planId || (!IsGoPlanId(planId) && other.legacy == legacy)
  }

  lemma ClientIdStands(planId: string, legId: string, legacy: string, other: LivePlan)
    requires Exact(planId, legacy) && CanonicalLeg(legId) && Known(other)
    requires FormatClientOrderId(planId, legId, legacy) in ClientOrderIds(other)
    ensures StandsFor(other, planId, legacy)
  {
    hide FormatClientOrderId, CanonicalLeg, IsGoPlanId, Exact;
    var i :| 0 <= i < |other.legIds|
             && FormatClientOrderId(other.planId, other.legIds[i], other.legacy)
                == FormatClientOrderId(planId, legId, legacy);
    ClientOrderIdsMeet(planId, legId, legacy, other.planId, other.legIds[i], other.legacy);
  }

  /** Exactly whose items the live plans account for. An item the executor wrote for a leg of a
      plan is recognised if and only if that plan is live, or the plan goes by its hash token
      and a live plan has the same one. */
  lemma OwnedExactly(live: seq<LivePlan>, planId: string, legId: string, legacy: string)
    requires forall i :: 0 <= i < |live| ==> Known(live[i])
    requires forall i :: 0 <= i < |live| && live[i].planId == planId ==> live[i].legacy == legacy
    requires Exact(planId, legacy) && CanonicalLeg(legId)
    ensures OwnsIdentity(ClaimsOf(live), FormatComment(planId, legId, legacy), FormatClientOrderId(planId, legId, legacy))
            <==> exists i :: 0 <= i < |live| && StandsFor(live[i], planId, legacy)
  {
    hide FormatClientOrderId, FormatComment, ParseOwnership, ParseCompactToken, CanonicalLeg, IsGoPlanId, Exact, Known,
      PlanTokens, ClientOrderIds, PlanToken, ClaimsOf, IsBlank;
    var comment, id := FormatComment(planId, legId, legacy), FormatClientOrderId(planId, legId, legacy);
    var token := PlanToken(planId, legacy);
    CommentToken(planId, legId, legacy);
    WrittenOwner(planId, legId, legacy);
    ClaimsMean(live, id);
    ClaimsMean(live, planId);
    ClaimsMean(live, token);
    forall i | 0 <= i < |live|
      ensures token in PlanTokens(live[i]) <==> StandsFor(live[i], planId, legacy)
      ensures id in ClientOrderIds(live[i]) ==> StandsFor(live[i], planId, legacy)
    {
      TokensMeet(planId, legacy, live[i]);
      if id in ClientOrderIds(live[i]) {
        ClientIdStands(planId, legId, legacy, live[i]);
      }
    }
  }
}
