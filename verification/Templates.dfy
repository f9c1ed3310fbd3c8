/** The three live constraint templates: validation, logical states and payoff evaluation
    (src/constraint_scanner/constraints). */
module Templates {
  import opened Common

  datatype TemplateType = BinaryComplement | ExactOneOfN | OneVsField | SubsetSuperset | MutualExclusion | AtLeastOne

  datatype Member = Member(marketId: int, tokenId: int, role: string)

  datatype Context = Context(templateType: TemplateType, members: seq<Member>, guaranteed: bool, basis: string)
  {
    predicate GuaranteedExhaustive() { guaranteed && basis != "" }
  }

  /** The payout of each member's token in one logical state. */
  type State = map<int, real>

  predicate DistinctMembers(members: seq<Member>) {
    forall i, j :: 0 <= i < j < |members| ==> members[i].tokenId != members[j].tokenId
  }

  function WithRole(members: seq<Member>, role: string): seq<Member> {
    Filter((m: Member) => m.role == role, members)
  }

  predicate Valid(context: Context) {
    var members := context.members;
    match context.templateType
    case BinaryComplement => |members| == 2 && DistinctMembers(members)
    case ExactOneOfN => |members| >= 2 && DistinctMembers(members) && context.GuaranteedExhaustive()
    case OneVsField =>
      && |WithRole(members, "one")| == 1
      && |WithRole(members, "field")| >= 1
      && DistinctMembers(members)
      && context.GuaranteedExhaustive()
    case SubsetSuperset => false
    case MutualExclusion => false
    case AtLeastOne => false
  }

  function Tokens(members: seq<Member>): seq<int> {
    seq(|members|, i requires 0 <= i < |members| => members[i].tokenId)
  }

  /** The state in which exactly the token `winner` pays one dollar. */
  function WinnerTakesAll(members: seq<Member>, winner: int): State {
    map t | t in Tokens(members) :: if t == winner then 1.0 else 0.0
  }

  /** The token that pays in each state, in the order the states are built. */
  function Winners(context: Context): seq<int>
    requires Valid(context)
  {
    if context.templateType == OneVsField then
      Tokens(WithRole(context.members, "one")) + Tokens(WithRole(context.members, "field"))
    else Tokens(context.members)
  }

  function States(context: Context): seq<State>
    requires Valid(context)
  {
    var winners := Winners(context);
    seq(|winners|, i requires 0 <= i < |winners| => WinnerTakesAll(context.members, winners[i]))
  }

  method BuildExactOneOfNStates(context: Context) returns (states: seq<State>)
    requires Valid(context) && context.templateType == ExactOneOfN
    ensures states == States(context)
  {
    states := [];
    for i := 0 to |context.members|
      invariant states == States(context)[..i]
    {
      states := states + [WinnerTakesAll(context.members, context.members[i].tokenId)];
    }
  }

  method BuildOneVsFieldStates(context: Context) returns (states: seq<State>)
    requires Valid(context) && context.templateType == OneVsField
    ensures states == States(context)
  {
    var one := WithRole(context.members, "one")[0];
    var field := WithRole(context.members, "field");
    states := [WinnerTakesAll(context.members, one.tokenId)];
    for i := 0 to |field|
      invariant states == States(context)[..i + 1]
    {
      states := states + [WinnerTakesAll(context.members, field[i].tokenId)];
    }
  }

  function BuildBinaryComplementStates(context: Context): (states: seq<State>)
    requires Valid(context) && context.templateType == BinaryComplement
    ensures states == States(context)
  {
    var left, right := context.members[0].tokenId, context.members[1].tokenId;
    var first, second := map[left := 1.0, right := 0.0], map[left := 0.0, right := 1.0];
    assert first == WinnerTakesAll(context.members, left) by { assert Tokens(context.members) == [left, right]; }
    assert second == WinnerTakesAll(context.members, right) by { assert Tokens(context.members) == [left, right]; }
    [first, second]
  }

  // ---------------------------------------------------------------- evaluation

  datatype TemplateEvaluation = TemplateEvaluation(
    totalCost: real, grossPayoffs: seq<real>, netPayoffs: seq<real>, minNetPayoff: real, maxNetPayoff: real)

  /** Sum over the members of an amount looked up by token, zero where it is missing. */
  function MemberTotal(members: seq<Member>, amounts: map<int, real>): real {
    if members == [] then 0.0
    else MemberTotal(members[..|members| - 1], amounts) + GetOrZero(amounts, members[|members| - 1].tokenId)
  }

  function GrossPayoffs(members: seq<Member>, states: seq<State>): seq<real> {
    seq(|states|, i requires 0 <= i < |states| => MemberTotal(members, states[i]))
  }

  function Lowered(payoffs: seq<real>, cost: real): seq<real> {
    seq(|payoffs|, i requires 0 <= i < |payoffs| => payoffs[i] - cost)
  }

  function Evaluate(members: seq<Member>, prices: map<int, real>, states: seq<State>): TemplateEvaluation {
    var cost := MemberTotal(members, prices);
    var gross := GrossPayoffs(members, states);
    var net := Lowered(gross, cost);
    TemplateEvaluation(cost, gross, net, if net == [] then 0.0 else Least(net), if net == [] then 0.0 else Greatest(net))
  }

  method EvaluateFromStates(context: Context, prices: map<int, real>, states: seq<State>) returns (r: Option<TemplateEvaluation>)
    ensures r == if Valid(context) then Some(Evaluate(context.members, prices, states)) else None
  {
    if !Valid(context) {
      return None;
    }
    hide Valid, MemberTotal;
    var cost := MemberTotal(context.members, prices);
    ghost var allGross := GrossPayoffs(context.members, states);
    ghost var allNet := Lowered(allGross, cost);
    var gross, net := [], [];
    for i := 0 to |states|
      invariant gross == allGross[..i]
      invariant net == allNet[..i]
    {
      var payoff := MemberTotal(context.members, states[i]);
      gross := gross + [payoff];
      net := net + [payoff - cost];
    }
    assert gross == allGross && net == allNet;
    r := Some(TemplateEvaluation(cost, gross, net, if net == [] then 0.0 else Least(net), if net == [] then 0.0 else Greatest(net)));
  }

  // ---------------------------------------------------------------- what the states mean

  lemma {:induction false} WinnerPaysOne(members: seq<Member>, all: seq<Member>, winner: int)
    requires DistinctMembers(members) && (forall m :: m in members ==> m in all)
    ensures MemberTotal(members, WinnerTakesAll(all, winner)) == if winner in Tokens(members) then 1.0 else 0.0
  {
    if members != [] {
      var n := |members| - 1;
      WinnerPaysOne(members[..n], all, winner);
      var last := members[n].tokenId;
      assert members[n] in members;
      var k :| 0 <= k < |all| && all[k] == members[n];
      assert Tokens(all)[k] == last;
      assert Tokens(members) == Tokens(members[..n]) + [last];
    }
  }

  lemma {:induction false} RoleTokens(members: seq<Member>, role: string, token: int)
    ensures token in Tokens(WithRole(members, role)) <==>
            exists i :: 0 <= i < |members| && members[i].tokenId == token && members[i].role == role
  {
    var kept := WithRole(members, role);
    FilterMembers((m: Member) => m.role == role, members);
    if token in Tokens(kept) {
      var i :| 0 <= i < |kept| && Tokens(kept)[i] == token;
      assert kept[i] in kept;
    }
    if i :| 0 <= i < |members| && members[i].tokenId == token && members[i].role == role {
      assert members[i] in kept;
      var k :| 0 <= k < |kept| && kept[k] == members[i];
      assert Tokens(kept)[k] == token;
    }
  }

  /** A member can win in some state exactly when the template gives it a state: always, except
      in a one-versus-field constraint for members that are neither the one nor in the field. */
  lemma MemberCanWin(context: Context, i: nat)
    requires Valid(context) && i < |context.members|
    ensures context.members[i].tokenId in Winners(context) <==>
            (context.templateType != OneVsField || context.members[i].role == "one" || context.members[i].role == "field")
  {
    var members := context.members;
    assert Tokens(members)[i] == members[i].tokenId;
    RoleTokens(members, "one", members[i].tokenId);
    RoleTokens(members, "field", members[i].tokenId);
  }

  lemma WinnersAreMembers(context: Context)
    requires Valid(context)
    ensures forall t :: t in Winners(context) ==> t in Tokens(context.members)
    ensures Winners(context) != []
  {
    forall t | t in Winners(context) ensures t in Tokens(context.members) {
      RoleTokens(context.members, "one", t);
      RoleTokens(context.members, "field", t);
      if context.templateType == OneVsField {
        var i :| 0 <= i < |context.members| && context.members[i].tokenId == t;
        assert Tokens(context.members)[i] == t;
      }
    }
  }

  /** Each state of a valid context pays exactly one of the members' tokens, and pays it one
      dollar, however many members there are. */
  lemma EachStatePaysOneToken(context: Context, s: nat)
    requires Valid(context) && s < |States(context)|
    ensures var state := States(context)[s];
      && (exists t :: t in Tokens(context.members) && state[t] == 1.0
            && forall u :: u in Tokens(context.members) && u != t ==> state[u] == 0.0)
      && MemberTotal(context.members, state) == 1.0
  {
    WinnersAreMembers(context);
    var winner := Winners(context)[s];
    WinnerPaysOne(context.members, context.members, winner);
    assert winner in Tokens(context.members) && States(context)[s][winner] == 1.0;
  }

  /** Every state has the same net payoff: one dollar minus the price of one basket. */
  lemma NetPayoffIsStateIndependent(context: Context, prices: map<int, real>)
    requires Valid(context)
    ensures var e := Evaluate(context.members, prices, States(context));
      && e.minNetPayoff == e.maxNetPayoff == 1.0 - MemberTotal(context.members, prices)
      && e.grossPayoffs != [] && forall g :: g in e.grossPayoffs ==> g == 1.0
  {
    WinnersAreMembers(context);
    var e := Evaluate(context.members, prices, States(context));
    forall i | 0 <= i < |e.grossPayoffs| ensures e.grossPayoffs[i] == 1.0 {
      EachStatePaysOneToken(context, i);
    }
    forall n | n in e.netPayoffs ensures n == 1.0 - e.totalCost {
      var i :| 0 <= i < |e.netPayoffs| && e.netPayoffs[i] == n;
      assert e.grossPayoffs[i] == 1.0;
    }
    assert e.netPayoffs != [];
  }

  // ---------------------------------------------------------------- which contexts are valid

  ghost predicate HasRole(members: seq<Member>, role: string, i: int) {
    0 <= i < |members| && members[i].role == role
  }

  ghost predicate SomeMemberAs(members: seq<Member>, role: string) {
    exists i :: HasRole(members, role, i)
  }

  /** Exactly one member has the role. */
  ghost predicate SoleMember(members: seq<Member>, role: string) {
    exists i :: HasRole(members, role, i) && forall j :: HasRole(members, role, j) ==> j == i
  }

  lemma {:induction false} RolesCounted(members: seq<Member>, role: string)
    ensures WithRole(members, role) != [] <==> SomeMemberAs(members, role)
    ensures |WithRole(members, role)| == 1 <==> SoleMember(members, role)
  {
    if members != [] {
      var head, tail := members[0], members[1..];
      RolesCounted(tail, role);
      assert WithRole(members, role) == (if head.role == role then [head] else []) + WithRole(tail, role);
      TailRoles(members, role);
    }
  }

  lemma {:induction false} TailRoles(members: seq<Member>, role: string)
    requires members != []
    ensures SomeMemberAs(members, role) <==> members[0].role == role || SomeMemberAs(members[1..], role)
    ensures SoleMember(members, role) <==> if members[0].role == role then !SomeMemberAs(members[1..], role) else SoleMember(members[1..], role)
  {
    var tail := members[1..];
    assert HasRole(members, role, 0) <==> members[0].role == role;
    forall i: int | i != 0 ensures HasRole(members, role, i) <==> HasRole(tail, role, i - 1) {
    }
    hide HasRole;
    assert forall i: int :: i != 0 ==> (HasRole(members, role, i) <==> HasRole(tail, role, i - 1));
    assert forall i: int :: i + 1 != 0 ==> (HasRole(tail, role, i) ==> HasRole(members, role, i + 1));
    NoNegativeRole(tail, role);
  }

  lemma NoNegativeRole(members: seq<Member>, role: string)
    ensures !HasRole(members, role, -1)
  {
  }

  /** The tokens of the members differ, and the set of outcomes is declared complete on some basis. */
  ghost predicate Exclusive(members: seq<Member>) {
    forall i, j :: 0 <= i < |members| && 0 <= j < |members| && members[i].tokenId == members[j].tokenId ==> i == j
  }

  ghost predicate DeclaredComplete(context: Context) {
    context.guaranteed == true && |context.basis| > 0
  }

  /** Valid are two complementary tokens; two or more of which one wins, when declared complete; and
      one token against a field, when declared complete. No other template is. */
  lemma {:induction false} ValidExactly(context: Context)
    ensures Valid(context) <==>
      && Exclusive(context.members)
      && (|| (context.templateType == BinaryComplement && |context.members| == 2)
          || (context.templateType == ExactOneOfN && |context.members| > 1 && DeclaredComplete(context))
          || (context.templateType == OneVsField && DeclaredComplete(context)
              && SoleMember(context.members, "one") && SomeMemberAs(context.members, "field")))
  {
    RolesCounted(context.members, "one");
    RolesCounted(context.members, "field");
    hide WithRole, SoleMember, SomeMemberAs;
  }
}
