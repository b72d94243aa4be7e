/** Access gates on chats and the default chat rules offered by the
    frontend. */
module Access {

  datatype Option<+T> = None | Some(value: T)

  datatype CredentialArgument = StringArgument(text: string) | NumberArgument(number: int)

  datatype Credential = Credential(
    credentialName: string,
    issuerCanisterId: string,
    issuerOrigin: string,
    credentialType: string,
    credentialArguments: Option<map<string, CredentialArgument>>)

  /** The `AccessGate` union; each variant is told apart by its `kind` tag. */
  datatype AccessGate =
    | NoGate
    | NeuronGate(governanceCanister: string, minStakeE8s: Option<int>, minDissolveDelay: Option<int>)
    | PaymentGate(ledgerCanister: string, amount: int, fee: int)
    | DiamondGate
    | LifetimeDiamondGate
    | NftGate
    | CredentialGate(credential: Credential)
    | TokenBalanceGate(ledgerCanister: string, minBalance: int)
    | UniquePersonGate

  /** The `kind` tag each variant carries. */
  function Kind(gate: AccessGate): string
  {
    match gate
    case NoGate => "no_gate"
    case NeuronGate(_, _, _) => "neuron_gate"
    case PaymentGate(_, _, _) => "payment_gate"
    case DiamondGate => "diamond_gate"
    case LifetimeDiamondGate => "lifetime_diamond_gate"
    case NftGate => "nft_gate"
    case CredentialGate(_) => "credential_gate"
    case TokenBalanceGate(_, _) => "token_balance_gate"
    case UniquePersonGate => "unique_person_gate"
  }

  /** `isNeuronGate`: the tag test is an exact type guard. */
  function IsNeuronGate(gate: AccessGate): (r: bool)
    ensures r <==> gate.NeuronGate?
  {
    Kind(gate) == "neuron_gate"
  }

  /** `isPaymentGate`. */
  function IsPaymentGate(gate: AccessGate): (r: bool)
    ensures r <==> gate.PaymentGate?
  {
    Kind(gate) == "payment_gate"
  }

  /** `isBalanceGate`. */
  function IsBalanceGate(gate: AccessGate): (r: bool)
    ensures r <==> gate.TokenBalanceGate?
  {
    Kind(gate) == "token_balance_gate"
  }

  /** `isCredentialGate`. */
  function IsCredentialGate(gate: AccessGate): (r: bool)
    ensures r <==> gate.CredentialGate?
  {
    Kind(gate) == "credential_gate"
  }

  /** The tags are distinct, so no gate passes two of the guards. */
  lemma AtMostOneGuardHolds(gate: AccessGate)
    ensures (if IsNeuronGate(gate) then 1 else 0) + (if IsPaymentGate(gate) then 1 else 0)
            + (if IsBalanceGate(gate) then 1 else 0) + (if IsCredentialGate(gate) then 1 else 0) <= 1
  {
  }

  /** The level a set of rules applies to. */
  datatype Level = Group | Channel | Community

  datatype VersionedRules = VersionedRules(text: string, enabled: bool, version: int)

  const RULES_HEAD: string :=
    "- Do not impersonate others in a deceptive or misleading manner\n"
    + "- Do not intentionally share false or misleading information\n"
    + "- Keep messages relevant to the "

  const RULES_WARNING: string :=
    "If you break the rules you might be blocked and/or have your message(s) deleted."

  /** `part` occurs in `text` starting at position `i`. */
  ghost predicate OccursAt(text: string, part: string, i: int)
  {
    0 <= i <= |text| - |part| && text[i..i + |part|] == part
  }

  ghost predicate Contains(text: string, part: string)
  {
    exists i :: OccursAt(text, part, i)
  }

  ghost predicate EndsWith(text: string, suffix: string)
  {
    |suffix| <= |text| && text[|text| - |suffix|..] == suffix
  }

  /** The rules text for a group or a community, naming `noun`. */
  function RulesText(noun: string): string
  {
    RULES_HEAD + noun + "\n\n" + RULES_WARNING
  }

  lemma RulesTextShape(noun: string)
    ensures OccursAt(RulesText(noun), "relevant to the " + noun + "\n", |RULES_HEAD| - |"relevant to the "|)
    ensures EndsWith(RulesText(noun), RULES_WARNING)
  {
  }

  /** `defaultChatRules`: disabled, version 0; no text for a channel;
      otherwise the three rules, naming the channel for a community and the
      group for a group, then the warning. */
  function DefaultChatRules(level: Level): (r: VersionedRules)
    ensures !r.enabled && r.version == 0
    ensures r.text == [] <==> level.Channel?
    ensures !level.Channel? ==> EndsWith(r.text, RULES_WARNING)
    ensures level.Community? ==> Contains(r.text, "relevant to the channel\n")
    ensures level.Group? ==> Contains(r.text, "relevant to the group\n")
  {
    var text := if level != Channel then RulesText(if level == Community then "channel" else "group") else "";
    RulesTextShape("channel");
    RulesTextShape("group");
    assert "relevant to the " + "channel" + "\n" == "relevant to the channel\n";
    assert "relevant to the " + "group" + "\n" == "relevant to the group\n";
    VersionedRules(text, false, 0)
  }
}
