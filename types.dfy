/** The `Subscription` record the components and the expense engine share
    (declared in app/utils/Types.ts, with the pause fields that
    app/components/Types.ts lacks) and the catalogue of subscriptions a user
    can pick from. */
module Types {
  import opened Wrappers
  import opened Dates

  /** One recurring payment. `date` is the billing day of the month;
      `startDate`, `pausedUntil` and `nextPaymentDate` are ISO strings in the
      source and already-parsed dates here. `amount` is exact. */
  datatype Subscription = Subscription(
    name: string,
    image: string,
    color: string,
    amount: real,
    date: int,
    frequency: string,
    totalSpent: real,
    startDate: Date,
    pausedUntil: Option<Date>,
    nextPaymentDate: Option<Date>)

  /** `Omit<Subscription, 'date' | 'totalSpent' | 'startDate'>`: a catalogue entry. */
  datatype CatalogItem = CatalogItem(name: string, image: string, color: string, amount: real, frequency: string)

  const AvailableSubscriptions: seq<CatalogItem> := [
    CatalogItem("Netflix", "/brand/Netflix.png", "#E50914", 12.99, "Monthly"),
    CatalogItem("Spotify", "/brand/Spotify.png", "#1DB954", 9.99, "Monthly"),
    CatalogItem("LinkedIn", "/brand/LinkedIn.png", "#0A66C2", 8.99, "Monthly"),
    CatalogItem("Amazon", "/brand/Amazon.png", "#FF9900", 7.99, "Monthly"),
    CatalogItem("Disney", "/brand/Disney.png", "#113CCF", 7.99, "Monthly"),
    CatalogItem("HBO Max", "/brand/hbomax.png", "#5E2DEB", 5.0, "Monthly"),
    CatalogItem("Paramount", "/brand/paramount.png", "#0064FF", 0.99, "Monthly"),
    CatalogItem("Apple TV", "/brand/AppleTV.png", "#000000", 6.99, "Monthly"),
    CatalogItem("Discord", "/brand/discord.png", "#5865F2", 7.99, "Monthly")
  ]

  /** Every catalogue entry is a positive monthly charge with its own name. */
  lemma CatalogueIsMonthly()
    ensures |AvailableSubscriptions| == 9
    ensures forall i :: 0 <= i < |AvailableSubscriptions| ==>
              AvailableSubscriptions[i].frequency == "Monthly" && AvailableSubscriptions[i].amount > 0.0
    ensures forall i, j :: 0 <= i < j < |AvailableSubscriptions| ==>
              AvailableSubscriptions[i].name != AvailableSubscriptions[j].name
  {
  }

  /** `subs.reduce((total, sub) => total + sub.amount, 0)` */
  function SumAmounts(subs: seq<Subscription>): (total: real)
    ensures subs == [] ==> total == 0.0
    ensures (forall i :: 0 <= i < |subs| ==> subs[i].amount >= 0.0) ==> total >= 0.0
  {
    if subs == [] then 0.0 else SumAmounts(subs[..|subs| - 1]) + subs[|subs| - 1].amount
  }

  /** Sums over a concatenation add up. */
  lemma {:induction false} SumAmountsConcat(a: seq<Subscription>, b: seq<Subscription>)
    ensures SumAmounts(a + b) == SumAmounts(a) + SumAmounts(b)
    decreases |b|
  {
    if b != [] {
      var init := b[..|b| - 1];
      assert a + b == (a + init) + [b[|b| - 1]];
      assert (a + b)[..|a + b| - 1] == a + init;
      SumAmountsConcat(a, init);
    } else {
      assert a + b == a;
    }
  }
}
