// The financial knowledge base: the built-in catalogue, its JSON form in local storage,
// seeding it on mount and reading it back.

module Knowledge {
  import opened Wrappers
  import Json
  import Storage

  datatype Difficulty = Easy | Medium | Advanced

  /** The order the matcher ranks difficulties by: easy before medium before advanced. */
  function Rank(d: Difficulty): nat {
    match d
    case Easy => 0
    case Medium => 1
    case Advanced => 2
  }

  function DifficultyName(d: Difficulty): string {
    match d
    case Easy => "easy"
    case Medium => "medium"
    case Advanced => "advanced"
  }

  function DifficultyFromName(s: string): (r: Option<Difficulty>)
    ensures r.Some? ==> DifficultyName(r.value) == s
  {
    if s == "easy" then Some(Easy)
    else if s == "medium" then Some(Medium)
    else if s == "advanced" then Some(Advanced)
    else None
  }

  lemma DifficultyNameRoundTrip(d: Difficulty)
    ensures DifficultyFromName(DifficultyName(d)) == Some(d)
  {
    match d
    case Easy =>
    case Medium =>
      assert DifficultyName(d) != "easy";
    case Advanced =>
      assert DifficultyName(d) != "easy" && DifficultyName(d) != "medium";
  }

  datatype KnowledgeItem = KnowledgeItem(
    keywords: seq<string>,
    response: string,
    difficulty: Difficulty,
    category: string)

  /** The local-storage key the catalogue is kept under. */
  const KnowledgeBaseKey: string := "financeKnowledgeBase"

  /** The number of entries in the built-in catalogue. */
  const CatalogueSize: nat := 27

  /** The built-in catalogue, in its source order: eight easy, nine medium and ten advanced entries. */
  function FinancialKnowledgeBase(): (kb: seq<KnowledgeItem>)
    ensures |kb| == CatalogueSize
  {
    seq(CatalogueSize, i requires 0 <= i < CatalogueSize => CatalogueEntry(i))
  }

  /** Entry `i` of the built-in catalogue. */
  function CatalogueEntry(i: nat): KnowledgeItem
    requires i < CatalogueSize
  {
    if i == 0 then
      KnowledgeItem(
        ["what is budget", "budgeting", "create budget", "monthly budget", "what's my monthly budget", "how much should i budget"],
        "A budget is a plan for how you'll spend your money each month. Try the 50/30/20 rule: 50% for needs (rent, food, bills), 30% for wants (entertainment, dining out), and 20% for savings and debt repayment. Start by tracking your income and expenses for one month to see where your money goes. Calculate: Income - Fixed expenses = Discretionary money for wants and savings.",
        Easy, "budgeting")
    else if i == 1 then
      KnowledgeItem(
        ["save money", "saving tips", "how to save", "start saving", "save more", "save more this month", "how can i save more"],
        "Start saving by: 1) Pay yourself first - automate transfers to savings right after payday, 2) Cut unused subscriptions, 3) Use the 24-hour rule before non-essential purchases, 4) Cook at home more often, 5) Use cashback and reward programs, 6) Challenge yourself with no-spend days, 7) Round up purchases and save the difference. Even saving ₹100/day adds up to ₹36,500/year!",
        Easy, "savings")
    else if i == 2 then
      KnowledgeItem(
        ["emergency fund", "emergency savings", "rainy day fund"],
        "An emergency fund is money set aside for unexpected expenses (medical bills, job loss, car repairs). Aim for 3-6 months of essential expenses in an easily accessible savings account. Start small with ₹1,000 and build gradually. Keep it in a separate account to avoid temptation.",
        Easy, "savings")
    else if i == 3 then
      KnowledgeItem(
        ["track expenses", "expense tracking", "where does money go", "track my expenses", "monitor spending", "expense tracker"],
        "Track expenses using: 1) Banking apps with built-in categorization (most banks offer this free), 2) Simple spreadsheet with categories (food, transport, entertainment, bills, subscriptions), 3) Apps like Money Manager, Walnut, or ET Money. Review weekly to spot patterns. Pro tip: Take 5 minutes every evening to log expenses - it becomes a habit. Categories help identify where you can cut back. Aim to track for at least 30 days to see full picture.",
        Easy, "budgeting")
    else if i == 4 then
      KnowledgeItem(
        ["what is interest", "simple interest", "compound interest"],
        "Interest is money earned on savings or paid on loans. Simple interest is calculated only on the principal amount. Compound interest is calculated on principal + accumulated interest, leading to exponential growth. Einstein called compound interest the '8th wonder of the world' - it makes your money grow faster over time!",
        Easy, "basics")
    else if i == 5 then
      KnowledgeItem(
        ["credit score", "cibil score", "improve credit score"],
        "Credit score (CIBIL in India) ranges from 300-900. Above 750 is considered good. Improve it by: 1) Pay bills on time, 2) Keep credit utilization below 30%, 3) Don't apply for multiple loans/cards quickly, 4) Maintain old credit accounts, 5) Check report annually for errors.",
        Easy, "credit")
    else if i == 6 then
      KnowledgeItem(
        ["what is inflation", "inflation meaning", "rising prices"],
        "Inflation is the rate at which prices of goods and services increase over time, reducing your purchasing power. For example, if inflation is 6%, something that costs ₹100 today will cost ₹106 next year. This is why investing is important - to beat inflation and grow your wealth.",
        Easy, "basics")
    else if i == 7 then
      KnowledgeItem(
        ["insurance need", "why insurance", "types of insurance"],
        "Insurance protects against financial loss from unexpected events. Essential types: 1) Health insurance (medical expenses), 2) Term life insurance (family protection), 3) Vehicle insurance (mandatory by law). Get health insurance first, then adequate term life insurance (10-15x annual income).",
        Easy, "insurance")
    else if i == 8 then
      KnowledgeItem(
        ["invest", "investment", "start investing", "where to invest"],
        "Start investing with these steps: 1) Build emergency fund first (3-6 months expenses), 2) Clear high-interest debt (credit cards), 3) Start with low-cost index funds/ETFs, 4) Consider your risk tolerance and time horizon. Common rule: equity allocation = 100 minus your age. Use SIP (Systematic Investment Plan) to invest regularly and benefit from rupee cost averaging.",
        Medium, "investment")
    else if i == 9 then
      KnowledgeItem(
        ["mutual fund", "mutual funds", "equity mutual fund", "debt mutual fund"],
        "Mutual funds pool money from investors to invest in stocks, bonds, or other assets. Types: 1) Equity funds (invest in stocks, higher risk/return), 2) Debt funds (invest in bonds, lower risk), 3) Hybrid funds (mix of both). Choose based on goals and risk appetite. Start with diversified equity funds or index funds for long-term wealth creation.",
        Medium, "investment")
    else if i == 10 then
      KnowledgeItem(
        ["sip", "systematic investment", "sip benefits"],
        "SIP (Systematic Investment Plan) lets you invest a fixed amount regularly in mutual funds. Benefits: 1) Rupee cost averaging - buy more units when prices are low, fewer when high, 2) Disciplined investing, 3) Power of compounding, 4) No need to time the market, 5) Start with as little as ₹500/month. Ideal for long-term goals (5+ years).",
        Medium, "investment")
    else if i == 11 then
      KnowledgeItem(
        ["tax saving", "section 80c", "save tax", "tax deduction"],
        "Save tax using these deductions: 1) Section 80C (₹1.5L limit): EPF, PPF, ELSS, life insurance, home loan principal, 2) Section 80D (₹25K-₹50K): Health insurance premiums, 3) Section 80CCD(1B) (₹50K): Additional NPS contribution, 4) HRA exemption for rent paid, 5) Home loan interest under Section 24(b) (₹2L limit).",
        Medium, "tax")
    else if i == 12 then
      KnowledgeItem(
        ["retirement planning", "retirement fund", "pension", "retire early"],
        "Retirement planning essentials: 1) Start early to leverage compound interest, 2) Aim to save 15-20% of income, 3) Use EPF (mandatory for salaried), PPF (15-year lock-in, 7-8% returns), NPS (equity exposure + tax benefits), 4) Equity mutual funds for growth, 5) Calculate required corpus = (annual expenses ÷ expected return %) × 25. Review and increase contributions annually.",
        Medium, "retirement")
    else if i == 13 then
      KnowledgeItem(
        ["debt management", "pay off debt", "debt repayment", "loan strategy"],
        "Two proven strategies: 1) Snowball method - pay smallest debts first for psychological wins, builds momentum, 2) Avalanche method - pay highest interest rate first, saves more money mathematically. Always pay minimum on all debts. Prioritize credit cards (15-36% interest) over education/home loans (7-12%). Consider debt consolidation if you have multiple high-interest loans.",
        Medium, "debt")
    else if i == 14 then
      KnowledgeItem(
        ["stocks", "stock market", "equity investment", "share market"],
        "Stock market allows buying company ownership shares. Before investing: 1) Learn fundamentals (P/E ratio, P/B ratio, ROE), 2) Diversify across sectors, 3) Start with blue-chip stocks or index funds, 4) Invest for long-term (5+ years), 5) Only invest money you can afford to lose. Don't try to time the market. For beginners, index funds are safer than individual stocks.",
        Medium, "investment")
    else if i == 15 then
      KnowledgeItem(
        ["fixed deposit", "fd rates", "fd vs mutual fund", "fixed income"],
        "Fixed Deposits offer guaranteed returns (6-7% currently) with capital protection. Pros: No market risk, predictable income. Cons: Returns barely beat inflation, taxed as per income slab, premature withdrawal penalty. Better for short-term goals (1-3 years) or risk-averse investors. For long-term wealth creation, equity mutual funds historically outperform FDs significantly.",
        Medium, "investment")
    else if i == 16 then
      KnowledgeItem(
        ["gold investment", "invest in gold", "gold etf", "sovereign gold bond"],
        "Ways to invest in gold: 1) Sovereign Gold Bonds (SGB) - best option, 2.5% annual interest + price appreciation, 8-year maturity, 2) Gold ETFs - track gold prices, traded on stock exchange, 3) Digital gold - fractional ownership, 4) Physical gold - has making charges and storage issues. Limit gold to 5-10% of portfolio as it doesn't generate income, only price appreciation.",
        Medium, "investment")
    else if i == 17 then
      KnowledgeItem(
        ["asset allocation", "portfolio allocation", "diversification strategy"],
        "Asset allocation is spreading investments across asset classes to balance risk and return. Strategic approach: 1) Equity (stocks/equity funds): 100 minus age (%), 2) Debt (bonds/debt funds): Age (%), 3) Gold: 5-10%, 4) International exposure: 10-20%. Rebalance annually. During accumulation phase (age 25-40), higher equity (70-80%). Near retirement, increase debt (50-60%). Use core-satellite strategy: 70% in passive index funds (core), 30% in active funds (satellite).",
        Advanced, "portfolio")
    else if i == 18 then
      KnowledgeItem(
        ["derivatives", "options", "futures", "hedging"],
        "Derivatives derive value from underlying assets. Types: 1) Futures - agreement to buy/sell at predetermined price/date, 2) Options - right (not obligation) to buy (call) or sell (put) at strike price. Used for: speculation (high risk/reward), hedging (protect portfolio from downside). Requires deep knowledge of Greeks (delta, gamma, theta, vega). Not recommended for beginners due to leverage and time decay. Can lose 100% of premium in options.",
        Advanced, "advanced_investment")
    else if i == 19 then
      KnowledgeItem(
        ["financial independence", "fire movement", "early retirement"],
        "FIRE (Financial Independence, Retire Early) calculation: 1) Annual expenses × 25 = required corpus (4% safe withdrawal rule), 2) Save 50-70% of income, 3) Invest aggressively in equity (70-90%), 4) Reduce lifestyle inflation. Example: ₹50L annual expense needs ₹12.5Cr corpus. Strategies: Coast FIRE (save early, let compound), Lean FIRE (minimize expenses), Fat FIRE (high corpus). Consider healthcare costs and inflation in planning.",
        Advanced, "retirement")
    else if i == 20 then
      KnowledgeItem(
        ["tax harvesting", "tax loss harvesting", "tax optimization"],
        "Tax-loss harvesting: Sell losing investments to offset capital gains, reducing tax liability. Strategy: 1) Long-term capital gains (LTCG) on equity >₹1.25L taxed at 12.5%, 2) Sell losers before year-end to book losses, 3) Buy similar (not identical) securities after 30 days to avoid wash sale, 4) Carry forward losses for 8 years. Also consider: 1) Stagger gains across years to stay below ₹1.25L threshold, 2) Gift assets to spouse in lower tax bracket (clubbing provisions apply).",
        Advanced, "tax")
    else if i == 21 then
      KnowledgeItem(
        ["portfolio rebalancing", "rebalancing strategy", "tactical allocation"],
        "Rebalancing maintains target asset allocation. Methods: 1) Calendar (annually/semi-annually), 2) Threshold (when allocation drifts 5-10%), 3) Hybrid (time + threshold). Process: Sell overweight assets, buy underweight. Example: Target 70-30 equity-debt becomes 80-20 after rally → sell 10% equity, buy debt. Tax considerations: Use debt funds' indexation benefit, harvest equity losses. In bull markets, rebalancing forces profit booking; in bear markets, forces buying low.",
        Advanced, "portfolio")
    else if i == 22 then
      KnowledgeItem(
        ["factor investing", "smart beta", "momentum investing", "value investing"],
        "Factor investing targets specific characteristics that drive returns: 1) Value - undervalued stocks (low P/E, P/B), 2) Momentum - stocks with upward price trends, 3) Quality - strong fundamentals (high ROE, low debt), 4) Low volatility - defensive stocks, 5) Size - small/mid cap premium. Smart beta funds combine factors systematically. Historically, value + momentum combination outperforms. Requires patience as factors underperform in cycles. Suitable for sophisticated investors with 10+ year horizon.",
        Advanced, "advanced_investment")
    else if i == 23 then
      KnowledgeItem(
        ["estate planning", "will", "inheritance", "succession planning"],
        "Estate planning ensures smooth wealth transfer: 1) Create valid will - clearly state beneficiaries, executor, asset distribution, 2) Nominee vs Legal heir - nominee is custodian, legal heirs inherit as per law/will, 3) Trust structures - for minors or conditional transfers, 4) Joint ownership - with survivorship clause, 5) Insurance - adequate term cover for family. Update will after major life events. Store safely, inform family about location. Consider: succession tax implications (none currently in India), generation-skipping strategies, charitable trusts for tax benefits.",
        Advanced, "planning")
    else if i == 24 then
      KnowledgeItem(
        ["international investment", "us stocks", "global diversification"],
        "International investing reduces home country bias and provides global opportunities. Options: 1) Direct foreign stocks - Liberalized Remittance Scheme (LRS) allows $250K/year, 2) International mutual funds/ETFs - easier, managed, 3) Indian funds with global exposure. Benefits: Currency diversification (rupee depreciation gains), access to global giants (Apple, Tesla). Considerations: TCS (Tax Collection at Source) 20% on remittances >₹7L, DTAA (avoid double taxation), FATCA/CRS compliance. Ideal allocation: 10-20% of equity portfolio.",
        Advanced, "advanced_investment")
    else if i == 25 then
      KnowledgeItem(
        ["margin trading", "leverage", "short selling"],
        "Margin trading borrows funds to amplify returns (and losses). Margin Trading Facility (MTF) allows buying stocks with 20-25% upfront, broker lends rest at 13-18% interest. Short selling bets on stock price decline - borrow shares, sell high, buy back low. High risk strategies: 1) Losses can exceed capital, 2) Margin calls force selling at loss, 3) Interest costs erode gains. Only for experienced traders with strict risk management (stop losses, position sizing). Not recommended for long-term investors. Regulatory risks and broker terms vary.",
        Advanced, "advanced_investment")
    else
      KnowledgeItem(
        ["alternate investment", "aif", "pms", "structured products"],
        "Alternative investments beyond traditional stocks/bonds: 1) AIF (Alternative Investment Fund) - Category I (startups, social ventures), Category II (PE/VC, debt funds), Category III (hedge funds). Min investment ₹1Cr, 2) PMS (Portfolio Management Services) - customized portfolio, min ₹50L, 3) REITs - real estate exposure, 4) InvITs - infrastructure projects, 5) Structured products - capital protection with equity upside. High fee structures (2-20%). Suitable for HNIs with ₹1Cr+ investable surplus. Higher risk, illiquidity, requires due diligence.",
        Advanced, "advanced_investment")
  }

  // ================================================================ JSON form

  function ItemToJson(item: KnowledgeItem): Json.Value {
    Json.Object([
      Json.Member("keywords", Json.ArrayOf(item.keywords, Json.StrValue)),
      Json.Member("response", Json.Str(item.response)),
      Json.Member("difficulty", Json.Str(DifficultyName(item.difficulty))),
      Json.Member("category", Json.Str(item.category))])
  }

  /** A parsed object with the four fields of a catalogue entry, each of the right type. */
  function ItemFromJson(v: Json.Value): Option<KnowledgeItem> {
    match (Json.Field(v, "keywords"), Json.AsString(Json.Field(v, "response")),
           Json.AsString(Json.Field(v, "difficulty")), Json.AsString(Json.Field(v, "category")))
    case (Some(kw), Some(response), Some(name), Some(category)) =>
      (match (Json.FromArray(kw, Json.StringOf), DifficultyFromName(name))
       case (Some(keywords), Some(d)) => Some(KnowledgeItem(keywords, response, d, category))
       case _ => None)
    case _ => None
  }

  lemma ItemRoundTrip(item: KnowledgeItem)
    ensures ItemFromJson(ItemToJson(item)) == Some(item)
  {
    var ms := ItemToJson(item).members;
    assert ms[0].key[0] == 'k' && ms[1].key[0] == 'r' && ms[2].key[0] == 'd' && ms[3].key[0] == 'c';
    Json.LookupAt(ms, 0);
    Json.LookupAt(ms, 1);
    Json.LookupAt(ms, 2);
    Json.LookupAt(ms, 3);
    Json.StringRoundTrip();
    Json.ArrayRoundTrip(item.keywords, Json.StrValue, Json.StringOf);
    DifficultyNameRoundTrip(item.difficulty);
  }

  lemma ItemsRoundTrip()
    ensures forall item :: ItemFromJson(ItemToJson(item)) == Some(item)
  {
    forall item: KnowledgeItem
      ensures ItemFromJson(ItemToJson(item)) == Some(item)
    {
      ItemRoundTrip(item);
    }
  }

  /** `JSON.stringify(catalogue)`. */
  function EncodeCatalogue(kb: seq<KnowledgeItem>): (r: string)
    ensures r != []
  {
    Json.Stringify(Json.ArrayOf(kb, ItemToJson))
  }

  /** Stored text read back as a catalogue; `None` when it does not parse or is not one. */
  function DecodeCatalogue(raw: string): (r: Option<seq<KnowledgeItem>>)
    ensures r.Some? ==> Json.Parse(raw).Some? && Json.LengthOf(Json.Parse(raw).value) == Json.Defined(Json.Number(|r.value|))
  {
    match Json.Parse(raw)
    case Some(v) => Json.FromArray(v, ItemFromJson)
    case None => None
  }

  /** Every catalogue survives storage unchanged. */
  lemma CatalogueRoundTrip(kb: seq<KnowledgeItem>)
    ensures DecodeCatalogue(EncodeCatalogue(kb)) == Some(kb)
  {
    Json.ParseStringify(Json.ArrayOf(kb, ItemToJson));
    ItemsRoundTrip();
    Json.ArrayRoundTrip(kb, ItemToJson, ItemFromJson);
  }

  // ================================================================ seeding

  /** The store with the built-in catalogue `builtIn` written under its key. */
  function Seeded(items: map<string, string>, builtIn: seq<KnowledgeItem>): map<string, string> {
    items[KnowledgeBaseKey := EncodeCatalogue(builtIn)]
  }

  /** The store after `initializeKnowledgeBase`: seeded when the key holds nothing, re-seeded
      when the stored value's `length` differs from the catalogue's, untouched when the stored
      text does not parse or is `null` (the exception is caught and logged). */
  function Initialized(items: map<string, string>, builtIn: seq<KnowledgeItem>): map<string, string> {
    var existing := Storage.Get(items, KnowledgeBaseKey);
    if !Storage.Truthy(existing) then Seeded(items, builtIn)
    else
      match Json.Parse(existing.value)
      case None => items
      case Some(parsed) =>
        var length := Json.LengthOf(parsed);
        if length == Json.TypeError || length == Json.Defined(Json.Number(|builtIn|)) then items
        else Seeded(items, builtIn)
  }

  method InitializeKnowledgeBase(store: Storage.LocalStorage, builtIn: seq<KnowledgeItem>)
    modifies store
    ensures store.items == Initialized(old(store.items), builtIn)
  {
    var existing := Storage.Get(store.items, KnowledgeBaseKey);
    if !Storage.Truthy(existing) {
      store.SetItem(KnowledgeBaseKey, EncodeCatalogue(builtIn));
    } else {
      var parsed := Json.Parse(existing.value);
      if parsed.Some? {
        var length := Json.LengthOf(parsed.value);
        if length != Json.TypeError && length != Json.Defined(Json.Number(|builtIn|)) {
          store.SetItem(KnowledgeBaseKey, EncodeCatalogue(builtIn));
        }
      }
    }
  }

  /** Initialization touches no key but the catalogue's, and that key is always present afterwards. */
  lemma InitializedTouchesOnlyCatalogue(items: map<string, string>, builtIn: seq<KnowledgeItem>)
    ensures Initialized(items, builtIn) == items || Initialized(items, builtIn) == Seeded(items, builtIn)
    ensures KnowledgeBaseKey in Initialized(items, builtIn)
    ensures forall k :: k != KnowledgeBaseKey ==> Storage.Get(Initialized(items, builtIn), k) == Storage.Get(items, k)
  {
  }

  /** An absent or empty entry is replaced by the built-in catalogue. */
  lemma InitializeSeedsMissing(items: map<string, string>, builtIn: seq<KnowledgeItem>)
    requires !Storage.Truthy(Storage.Get(items, KnowledgeBaseKey))
    ensures DecodeCatalogue(Initialized(items, builtIn)[KnowledgeBaseKey]) == Some(builtIn)
  {
    CatalogueRoundTrip(builtIn);
  }

  /** A stored catalogue is kept exactly when it has as many entries as the built-in one. */
  lemma InitializeComparesLength(items: map<string, string>, builtIn: seq<KnowledgeItem>, kb: seq<KnowledgeItem>)
    requires KnowledgeBaseKey in items && DecodeCatalogue(items[KnowledgeBaseKey]) == Some(kb)
    ensures Initialized(items, builtIn) == items <==> |kb| == |builtIn| || items == Seeded(items, builtIn)
    ensures |kb| != |builtIn| ==> Initialized(items, builtIn) == Seeded(items, builtIn)
  {
    var raw := items[KnowledgeBaseKey];
    assert raw != [] by {
      assert Json.Parse(raw).Some?;
    }
  }

  /** Text that does not parse, or parses to `null`, is left in place. */
  lemma InitializeKeepsUnreadable(items: map<string, string>, builtIn: seq<KnowledgeItem>)
    requires Storage.Truthy(Storage.Get(items, KnowledgeBaseKey))
    requires Json.Parse(items[KnowledgeBaseKey]) in {None, Some(Json.Null)}
    ensures Initialized(items, builtIn) == items
  {
  }

  /** Mounting a second time changes nothing more. */
  lemma InitializeIdempotent(items: map<string, string>, builtIn: seq<KnowledgeItem>)
    ensures Initialized(Initialized(items, builtIn), builtIn) == Initialized(items, builtIn)
  {
    var once := Initialized(items, builtIn);
    if once == Seeded(items, builtIn) {
      CatalogueRoundTrip(builtIn);
      InitializeComparesLength(once, builtIn, builtIn);
      assert Seeded(once, builtIn) == once;
    }
  }

  // ================================================================ reading

  /** `getKnowledgeBase`: the stored catalogue when the key holds one, the built-in one otherwise. */
  function GetKnowledgeBase(items: map<string, string>, builtIn: seq<KnowledgeItem>): seq<KnowledgeItem> {
    var kb := Storage.Get(items, KnowledgeBaseKey);
    if Storage.Truthy(kb) then DecodeCatalogue(kb.value).GetOr(builtIn)
    else builtIn
  }

  lemma GetKnowledgeBaseCases(items: map<string, string>, builtIn: seq<KnowledgeItem>)
    ensures KnowledgeBaseKey in items && DecodeCatalogue(items[KnowledgeBaseKey]).Some? ==>
              GetKnowledgeBase(items, builtIn) == DecodeCatalogue(items[KnowledgeBaseKey]).value
    ensures KnowledgeBaseKey !in items || DecodeCatalogue(items[KnowledgeBaseKey]).None? ==>
              GetKnowledgeBase(items, builtIn) == builtIn
  {
    if KnowledgeBaseKey in items && DecodeCatalogue(items[KnowledgeBaseKey]).Some? {
      assert items[KnowledgeBaseKey] != [] by {
        assert Json.Parse(items[KnowledgeBaseKey]).Some?;
      }
    }
  }

  /** A catalogue written to the store is the one read back. */
  lemma GetKnowledgeBaseOfStored(items: map<string, string>, builtIn: seq<KnowledgeItem>, kb: seq<KnowledgeItem>)
    ensures GetKnowledgeBase(items[KnowledgeBaseKey := EncodeCatalogue(kb)], builtIn) == kb
  {
    CatalogueRoundTrip(kb);
  }

  /** After mounting, the matcher reads either the built-in catalogue or the one already stored,
      which then has as many entries as the built-in one. */
  lemma KnowledgeBaseAfterInitialize(items: map<string, string>, builtIn: seq<KnowledgeItem>)
    ensures var kb := GetKnowledgeBase(Initialized(items, builtIn), builtIn);
            kb == builtIn
            || (KnowledgeBaseKey in items && DecodeCatalogue(items[KnowledgeBaseKey]) == Some(kb) && |kb| == |builtIn|)
  {
    var once := Initialized(items, builtIn);
    if once == Seeded(items, builtIn) {
      GetKnowledgeBaseOfStored(items, builtIn, builtIn);
    } else {
      GetKnowledgeBaseCases(once, builtIn);
      if KnowledgeBaseKey in items && DecodeCatalogue(items[KnowledgeBaseKey]).Some? {
        InitializeComparesLength(items, builtIn, DecodeCatalogue(items[KnowledgeBaseKey]).value);
      }
    }
  }
}
