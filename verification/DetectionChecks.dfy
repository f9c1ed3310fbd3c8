/** Why a constraint is not reported: the rejections of both detectors, told from the books
    (src/constraint_scanner/detection/combinatorial.py, intra_market.py). */
module DetectionChecks {
  import opened Common
  import opened Checks
  import opened BasketPricing
  import opened Templates
  import opened Detection
  import opened SizeChoice
  import opened OpportunityStore
  import opened DetectorServices

  lemma {:induction false} OffersMakeSize(books: Books, members: seq<Member>)
    requires members != [] && Offers(books, members)
    ensures MaxBasketQuantity(books, BasketLegs(members)) > 0.0
  {
    var legs := BasketLegs(members);
    MaxBasketQuantityIsLeast(books, legs);
    forall leg | leg in legs ensures LegLimit(books, leg) > 0.0 {
      var i :| 0 <= i < |legs| && legs[i] == leg;
      assert members[i] in members;
    }
  }

  /** A basket exists exactly when every token has a book with something to buy. */
  lemma SizeExactly(context: Context, books: Books)
    requires Valid(context)
    ensures MaxBasketQuantity(books, BasketLegs(context.members)) > 0.0 <==> Offers(books, context.members)
  {
    Detection.SomeMember(context);
    hide MaxBasketQuantity, BasketLegs, Offers;
    if Offers(books, context.members) {
      OffersMakeSize(books, context.members);
    } else if MaxBasketQuantity(books, BasketLegs(context.members)) > 0.0 {
      MaxNeedsOffers(books, context.members);
    }
  }

  /** A basket at this price has no more than the minimum edge, in basis points of its price. */
  ghost predicate EdgeTooSmall(total: real, minEdgeBps: real) {
    total > 0.0 && (1.0 - total) / total * 10000.0 <= minEdgeBps
  }

  ghost function EnumerationChecks(settings: Settings, context: Context, books: Books, confidence: real): seq<Check<Rejection>> {
    var total := AverageTotal(books, context.members);
    [ Check(TemplateValidationFailed, !Valid(context)),
      Check(MaxLegsExceeded, |context.members| > settings.maxLegs),
      Check(ConfidenceBelowThreshold, confidence < settings.confidenceThreshold),
      Check(NoExecutableDepth, !Offers(books, context.members)),
      Check(NonPositiveGuaranteedPayoff, total >= 1.0),
      Check(ZeroNotional, total <= 0.0),
      Check(EdgeBelowThreshold, EdgeTooSmall(total, settings.minEdgeBps)) ]
  }

  ghost function ClosedFormChecks(context: Context, books: Books): seq<Check<Rejection>> {
    var total := AverageTotal(books, context.members);
    [ Check(TemplateNotSupported, context.templateType !in {BinaryComplement, ExactOneOfN, OneVsField}),
      Check(TemplateValidationFailed, !Valid(context)),
      Check(NoExecutableDepth, !Offers(books, context.members)),
      Check(CostNotBelowGuaranteedPayout, total >= 1.0),
      Check(ZeroNotional, total <= 0.0) ]
  }

  /** The basket at its largest size, in terms of the average prices of its tokens. */
  lemma {:induction false} PricedAtAverages(context: Context, books: Books)
    requires Valid(context) && MaxBasketQuantity(books, BasketLegs(context.members)) > 0.0
    ensures var quantity := MaxBasketQuantity(books, BasketLegs(context.members));
      var cost, total := BasketCost(books, BasketLegs(context.members), quantity), AverageTotal(books, context.members);
      && AllFullyFilled(cost.fills)
      && Evaluate(context.members, UnitPrices(cost.fills), States(context)).minNetPayoff == 1.0 - total
      && cost.grossBuyCost == Times(total, quantity) && ComputeNetEdge(1.0, cost) == Times(1.0 - total, quantity)
      && (cost.grossBuyCost > 0.0 <==> total > 0.0) && (ComputeNetEdge(1.0, cost) > 0.0 <==> total < 1.0)
      && (total > 0.0 ==> Times(1.0 - total, quantity) / cost.grossBuyCost == (1.0 - total) / total)
  {
    BasketIsPriced(context, books);
    hide MaxBasketQuantity, Evaluate, MemberTotal, AllFullyFilled, GrossNotional, Fills, Valid, States;
    var quantity := MaxBasketQuantity(books, BasketLegs(context.members));
    var cost, total := BasketCost(books, BasketLegs(context.members), quantity), AverageTotal(books, context.members);
    NetPayoffIsStateIndependent(context, UnitPrices(cost.fills));
    hide Times;
    PositiveProduct(total, quantity);
    PositiveProduct(1.0 - total, quantity);
    TimesAdds(quantity, 1.0 - total, total);
    if total > 0.0 {
      SameRatio(1.0 - total, total, quantity);
    }
  }

  /** The checks on the executable basket; whether its edge suffices is told elsewhere. */
  lemma {:induction false} RejectedAtSize(hash: KeyHash, settings: Settings, context: Context, books: Books, confidence: real)
    requires Valid(context) && |context.members| <= settings.maxLegs && confidence >= settings.confidenceThreshold
    requires MaxBasketQuantity(books, BasketLegs(context.members)) > 0.0
    ensures var r, total := DetectCombinatorial(hash, settings, context, books, confidence), AverageTotal(books, context.members);
      && (total >= 1.0 ==> r == Rejected(NonPositiveGuaranteedPayoff))
      && (total <= 0.0 ==> r == Rejected(ZeroNotional))
      && (r.Found? || total >= 1.0 || total <= 0.0 || r == Rejected(EdgeBelowThreshold))
  {
    PricedAtAverages(context, books);
    hide Valid, MaxBasketQuantity, BasketCost, Evaluate, AllFullyFilled, AverageTotal, Times, FindingOf, States, BasketLegs, UnitPrices, ComputeNetEdge;
  }

  lemma {:induction false} FoundAtSize(hash: KeyHash, settings: Settings, context: Context, books: Books, confidence: real)
    requires Valid(context) && |context.members| <= settings.maxLegs && confidence >= settings.confidenceThreshold
    requires MaxBasketQuantity(books, BasketLegs(context.members)) > 0.0
    ensures var r, total := DetectCombinatorial(hash, settings, context, books, confidence), AverageTotal(books, context.members);
      r.Found? <==> 0.0 < total < 1.0 && !EdgeTooSmall(total, settings.minEdgeBps)
  {
    hide DetectCombinatorial, Valid, MaxBasketQuantity, AverageTotal, BasketLegs;
    DetectorFindsExactly(hash, settings, context, books, confidence);
  }

  lemma {:induction false} RejectedEarly(hash: KeyHash, settings: Settings, context: Context, books: Books, confidence: real)
    ensures var r := DetectCombinatorial(hash, settings, context, books, confidence);
      && (!Valid(context) ==> r == Rejected(TemplateValidationFailed))
      && (Valid(context) && |context.members| > settings.maxLegs ==> r == Rejected(MaxLegsExceeded))
      && (Valid(context) && |context.members| <= settings.maxLegs && confidence < settings.confidenceThreshold ==> r == Rejected(ConfidenceBelowThreshold))
      && (Valid(context) && |context.members| <= settings.maxLegs && confidence >= settings.confidenceThreshold ==>
            MaxBasketQuantity(books, BasketLegs(context.members)) > 0.0 || r == Rejected(NoExecutableDepth))
  {
    hide Valid, MaxBasketQuantity, BasketCost, Evaluate, AllFullyFilled, Times, FindingOf, States, BasketLegs, UnitPrices;
  }

  lemma {:induction false} RejectedInOrder(hash: KeyHash, settings: Settings, context: Context, books: Books, confidence: real)
    ensures var r, code := DetectCombinatorial(hash, settings, context, books, confidence),
                           FirstCode(EnumerationChecks(settings, context, books, confidence));
      if code.Some? then r == Rejected(code.value) else r.Found?
  {
    FirstOfSeven(EnumerationChecks(settings, context, books, confidence));
    RejectedEarly(hash, settings, context, books, confidence);
    hide FirstCode, Valid, Offers, MaxBasketQuantity, AverageTotal, BasketLegs, DetectCombinatorial, EdgeTooSmall;
    if Valid(context) {
      SizeExactly(context, books);
      if |context.members| <= settings.maxLegs && confidence >= settings.confidenceThreshold && Offers(books, context.members) {
        RejectedAtSize(hash, settings, context, books, confidence);
        FoundAtSize(hash, settings, context, books, confidence);
      }
    }
  }

  /** The enumerating detector rejects with the code of the first check that fails, and reports a
      finding exactly when none does. */
  lemma {:induction false} FirstFailingCheckRejects(hash: KeyHash, settings: Settings, context: Context, books: Books, confidence: real)
    ensures var r, checks := DetectCombinatorial(hash, settings, context, books, confidence), EnumerationChecks(settings, context, books, confidence);
      && (r.Found? <==> !SomeFails(checks))
      && (forall i: nat :: FirstFails(checks, i) ==> r == Rejected(checks[i].code))
  {
    hide DetectCombinatorial, EnumerationChecks, FirstCode, FirstFails, SomeFails;
    RejectedInOrder(hash, settings, context, books, confidence);
    FirstCodeIsFirst(EnumerationChecks(settings, context, books, confidence));
  }

  lemma {:induction false} ClosedFormInOrder(hash: KeyHash, context: Context, books: Books, confidence: real)
    ensures var r, code := DetectIntraMarket(hash, context, books, confidence), FirstCode(ClosedFormChecks(context, books));
      if code.Some? then r == Rejected(code.value) else r.Found?
  {
    FirstOfFive(ClosedFormChecks(context, books));
    if Valid(context) {
      SizeExactly(context, books);
      if Offers(books, context.members) {
        PricedAtAverages(context, books);
      }
    }
    hide FirstCode, Valid, Offers, MaxBasketQuantity, BasketCost, Evaluate, AllFullyFilled, AverageTotal, Times, FindingOf, States, BasketLegs, UnitPrices, ComputeNetEdge;
  }

  /** So does the closed-form detector, with its own checks. */
  lemma {:induction false} FirstFailingCheckRejectsClosedForm(hash: KeyHash, context: Context, books: Books, confidence: real)
    ensures var r, checks := DetectIntraMarket(hash, context, books, confidence), ClosedFormChecks(context, books);
      && (r.Found? <==> !SomeFails(checks))
      && (forall i: nat :: FirstFails(checks, i) ==> r == Rejected(checks[i].code))
  {
    hide DetectIntraMarket, ClosedFormChecks, FirstCode, FirstFails, SomeFails;
    ClosedFormInOrder(hash, context, books, confidence);
    FirstCodeIsFirst(ClosedFormChecks(context, books));
  }

  // ---------------------------------------------------------------- a run of the service

  /** A run evaluates every loaded constraint as it was loaded: on its own members, at its own
      confidence, on the books of the run. */
  lemma {:induction false} ConstraintIsEvaluated(hash: KeyHash, settings: Settings, constraints: seq<LoadedConstraint>, books: Books, i: nat)
    requires i < |constraints|
    ensures |Evaluations(hash, settings, constraints, books)| == |constraints|
    ensures var e, c := Evaluations(hash, settings, constraints, books)[i], constraints[i];
      var checks := EnumerationChecks(settings, c.context, books, c.confidence);
      && e.constraintId == c.constraintId && e.groupId == c.groupId
      && (e.outcome.Found? <==> !SomeFails(checks))
      && (e.outcome.Found? ==>
            && e.outcome.finding.details.confidence == Some(c.confidence)
            && |e.outcome.finding.legs| == |c.context.members|
            && forall k :: 0 <= k < |c.context.members| ==>
                 && e.outcome.finding.legs[k].marketId == c.context.members[k].marketId
                 && e.outcome.finding.legs[k].tokenId == c.context.members[k].tokenId)
      && (forall k: nat :: FirstFails(checks, k) ==> e.outcome == Rejected(checks[k].code))
  {
    var c := constraints[i];
    hide DetectCombinatorial, EnumerationChecks, SomeFails, FirstFails;
    FirstFailingCheckRejects(hash, settings, c.context, books, c.confidence);
    if DetectCombinatorial(hash, settings, c.context, books, c.confidence).Found? {
      FindingLegs(hash, settings, c.context, books, c.confidence);
    }
  }

  /** The findings a run counts are the evaluations that found something. */
  lemma {:induction false} FoundExactly(evaluations: seq<Evaluation>)
    ensures FoundCount(evaluations) == |set i | 0 <= i < |evaluations| && evaluations[i].outcome.Found?|
  {
    if evaluations != [] {
      var n := |evaluations| - 1;
      FoundExactly(evaluations[..n]);
      var before, after := set i | 0 <= i < n && evaluations[..n][i].outcome.Found?, set i | 0 <= i < |evaluations| && evaluations[i].outcome.Found?;
      assert after == before + if evaluations[n].outcome.Found? then {n} else {};
    }
  }
}
