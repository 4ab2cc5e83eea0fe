/**
 * The capability card a Shaket agent publishes for discovery: one skill
 * per session kind and role it supports, and a description that names
 * its roles.
 */
module AgentCards {
  import opened Types
  import Text

  datatype Skill = Skill(id: string, name: string, description: string, tags: seq<string>, examples: seq<string>)

  datatype Capabilities = Capabilities(streaming: bool, pushNotifications: bool)

  datatype AgentCard = AgentCard(
    name: string,
    description: string,
    url: string,
    preferredTransport: string,
    version: string,
    capabilities: Capabilities,
    defaultInputModes: seq<string>,
    defaultOutputModes: seq<string>,
    skills: seq<Skill>)

  /** The words for the roles supported, buyer's first: `role_desc` with `buy`/`sell`, `roles` with `buyer`/`seller`. */
  function RoleWords(canBuy: bool, canSell: bool, buyWord: string, sellWord: string): (r: seq<string>)
    ensures |r| == (if canBuy then 1 else 0) + (if canSell then 1 else 0)
    ensures canBuy ==> r[0] == buyWord
    ensures canSell ==> r[|r| - 1] == sellWord
  {
    (if canBuy then [buyWord] else []) + (if canSell then [sellWord] else [])
  }

  function NegotiateSkill(roleDesc: seq<string>): Skill {
    Skill("negotiate", "One-on-One Negotiation",
      "Negotiate directly with another agent (can " + Text.Join(roleDesc, " and ") + ")",
      ["negotiation", "shaket"] + roleDesc,
      ["Negotiate price for a product", "Discuss terms with a counterparty"])
  }

  const SellerSkill := Skill("reverse_auction_seller", "Reverse Auction (Seller)",
    "Submit competitive offers to buyers in a reverse auction",
    ["reverse-auction", "sell", "multi-party", "shaket"],
    ["Submit offer in reverse auction", "Compete with other sellers for best price",
     "Adjust offers based on market feedback"])

  const BuyerSkill := Skill("reverse_auction_buyer", "Reverse Auction (Buyer)",
    "Collect offers from multiple sellers and evaluate them",
    ["reverse-auction", "buy", "multi-party", "shaket"],
    ["Request offers from multiple sellers", "Provide market feedback to sellers",
     "Evaluate all offers after rounds complete"])

  /**
   * `generate_agent_card`: the card keeps the agent's name, endpoint and
   * version, speaks JSON-RPC with JSON in and out, never offers push
   * notifications, and its description begins with the one given.
   */
  function GenerateAgentCard(name: string, description: string, url: string, sessionTypes: seq<SessionType>,
                             roles: seq<AgentRole>, version: string := "1.0.0", streaming: bool := false)
    : (r: AgentCard)
    ensures r.name == name && r.url == url && r.version == version
    ensures r.capabilities == Capabilities(streaming, false) && r.preferredTransport == "JSONRPC"
    ensures r.defaultInputModes == ["application/json"] && r.defaultOutputModes == ["application/json"]
    ensures |description| <= |r.description| && r.description[..|description|] == description
    ensures |r.skills| <= 3
  {
    var canBuy, canSell := Buyer in roles, Seller in roles;
    var skills :=
      (if Negotiation in sessionTypes then [NegotiateSkill(RoleWords(canBuy, canSell, "buy", "sell"))] else [])
      + (if ReverseAuction in sessionTypes && canSell then [SellerSkill] else [])
      + (if ReverseAuction in sessionTypes && canBuy then [BuyerSkill] else []);
    AgentCard(name, description + " (acts as " + Text.Join(RoleWords(canBuy, canSell, "buyer", "seller"), " and ") + ")",
      url, "JSONRPC", version, Capabilities(streaming, false), ["application/json"], ["application/json"], skills)
  }

  function SkillIds(skills: seq<Skill>): seq<string> {
    if skills == [] then [] else [skills[0].id] + SkillIds(skills[1..])
  }

  /**
   * The skills are, in this order: `negotiate` exactly when negotiation
   * is supported, `reverse_auction_seller` exactly when reverse auctions
   * and selling are, and `reverse_auction_buyer` exactly when reverse
   * auctions and buying are.
   */
  lemma SkillsFollowSupport(name: string, description: string, url: string, sessionTypes: seq<SessionType>,
                            roles: seq<AgentRole>, version: string, streaming: bool)
    ensures var card := GenerateAgentCard(name, description, url, sessionTypes, roles, version, streaming);
      var auction := ReverseAuction in sessionTypes;
      SkillIds(card.skills)
      == (if Negotiation in sessionTypes then ["negotiate"] else [])
         + (if auction && Seller in roles then ["reverse_auction_seller"] else [])
         + (if auction && Buyer in roles then ["reverse_auction_buyer"] else [])
  {
    var card := GenerateAgentCard(name, description, url, sessionTypes, roles, version, streaming);
    var canBuy, canSell := Buyer in roles, Seller in roles;
    var n := if Negotiation in sessionTypes then [NegotiateSkill(RoleWords(canBuy, canSell, "buy", "sell"))] else [];
    var s := if ReverseAuction in sessionTypes && canSell then [SellerSkill] else [];
    var b := if ReverseAuction in sessionTypes && canBuy then [BuyerSkill] else [];
    SkillIdsAppend(n, s);
    SkillIdsAppend(n + s, b);
  }

  lemma {:induction false} SkillIdsAppend(a: seq<Skill>, b: seq<Skill>)
    ensures SkillIds(a + b) == SkillIds(a) + SkillIds(b)
  {
    if a == [] {
      assert a + b == b;
    } else {
      assert (a + b)[1..] == a[1..] + b;
      SkillIdsAppend(a[1..], b);
    }
  }

  /**
   * The negotiate skill's tags are `negotiation`, `shaket`, then `buy`
   * and `sell` as supported; the description names the roles, buyer
   * first; push notifications are off and streaming is passed through.
   */
  lemma CardDescribesRoles(name: string, description: string, url: string, sessionTypes: seq<SessionType>,
                           roles: seq<AgentRole>, version: string, streaming: bool)
    ensures var card := GenerateAgentCard(name, description, url, sessionTypes, roles, version, streaming);
      var canBuy, canSell := Buyer in roles, Seller in roles;
      && (Negotiation in sessionTypes ==>
            card.skills[0].id == "negotiate"
            && card.skills[0].tags == ["negotiation", "shaket"] + (if canBuy then ["buy"] else []) + (if canSell then ["sell"] else []))
      && card.description == description + " (acts as "
           + (if canBuy && canSell then "buyer and seller" else if canBuy then "buyer" else if canSell then "seller" else "")
           + ")"
      && card.capabilities == Capabilities(streaming, false)
  {
    var canBuy, canSell := Buyer in roles, Seller in roles;
    var words := RoleWords(canBuy, canSell, "buyer", "seller");
    if canBuy && canSell {
      assert words == ["buyer", "seller"];
      assert Text.Join(words, " and ") == "buyer" + " and " + Text.Join(["seller"], " and ");
    }
  }
}
