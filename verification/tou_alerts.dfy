/** The alerting half of the EcoFlux background process: resolving the users who asked
    for e-mail alerts, sending one alert per user, the per-category tick that stores the
    rate and gates the alerts on the threshold, and the scheduled tick over all
    categories.

    The document store, the identity provider and the mail transport are not modelled;
    each call to them is an input outcome (success or failure), so that the fan-out
    loops become functions of those outcomes. */
module TouAlerts {
  import opened Options
  import opened TouTariff

  /** A profile document returned by the subscription query. `profileEmail` is the
      document's own `email` field, when it has one. */
  datatype UserDoc = UserDoc(id: string, profileEmail: Option<string>)

  /** What the identity provider answers for a user id: the account's e-mail, when
      it has one, or a failure. */
  datatype AuthLookup = Found(email: Option<string>) | LookupFailed

  /** A resolved recipient: the address alerts go to, and the profile it came from. */
  datatype Recipient = Recipient(email: string, profile: UserDoc)

  /** The account e-mail when the lookup succeeded and the address is non-empty
      (a JavaScript truthy string). */
  function ContactOf(lookup: AuthLookup): (e: Option<string>)
    ensures e.Some? <==> lookup.Found? && lookup.email.Some? && lookup.email.value != ""
    ensures e.Some? ==> e == lookup.email
  {
    match lookup
    case Found(Some(addr)) => if addr != "" then Some(addr) else None
    case _ => None
  }

  /** The recipient built from one queried profile, if any. The record is
      `{ email, ...profile }`, so a profile's own `email` field overrides the account
      address, while the presence test looks only at the account address. */
  function RecipientFor(d: UserDoc, lookup: AuthLookup): (r: Option<Recipient>)
    ensures r.Some? <==> ContactOf(lookup).Some?
    ensures r.Some? ==> r.value.profile == d
    ensures r.Some? ==> r.value.email == d.profileEmail.GetOr(ContactOf(lookup).value)
  {
    match ContactOf(lookup)
    case None => None
    case Some(addr) => Some(Recipient(d.profileEmail.GetOr(addr), d))
  }

  function AsSeq(o: Option<Recipient>): seq<Recipient> {
    match o
    case None => []
    case Some(r) => [r]
  }

  /** The recipients of an alert: for each queried profile, in query order, the
      recipient its lookup yields; profiles whose lookup failed or gave no address
      are skipped. */
  function ResolveRecipients(docs: seq<UserDoc>, auth: string -> AuthLookup): (users: seq<Recipient>)
    ensures |users| <= |docs|
  {
    if |docs| == 0 then []
    else AsSeq(RecipientFor(docs[0], auth(docs[0].id))) + ResolveRecipients(docs[1..], auth)
  }

  /** A recipient is resolved exactly when its profile was queried and that profile's
      lookup yields it. */
  lemma {:induction false} ResolveMembership(docs: seq<UserDoc>, auth: string -> AuthLookup, u: Recipient)
    ensures u in ResolveRecipients(docs, auth) <==> u.profile in docs && RecipientFor(u.profile, auth(u.profile.id)) == Some(u)
    decreases |docs|
  {
    if |docs| > 0 {
      ResolveMembership(docs[1..], auth, u);
      if u.profile in docs && u.profile != docs[0] {
        assert u.profile in docs[1..];
      }
    }
  }

  /** Resolution distributes over concatenation, so the output keeps query order. */
  lemma {:induction false} ResolveConcat(a: seq<UserDoc>, b: seq<UserDoc>, auth: string -> AuthLookup)
    ensures ResolveRecipients(a + b, auth) == ResolveRecipients(a, auth) + ResolveRecipients(b, auth)
    decreases |a|
  {
    if |a| == 0 {
      assert a + b == b;
    } else {
      assert (a + b)[1..] == a[1..] + b;
      ResolveConcat(a[1..], b, auth);
    }
  }

  lemma ResolveSingleton(d: UserDoc, auth: string -> AuthLookup)
    ensures ResolveRecipients([d], auth) == AsSeq(RecipientFor(d, auth(d.id)))
  {
    assert [d][1..] == [];
  }

  /** A failed lookup drops exactly that profile: the recipients are those of the
      profiles before it followed by those of the profiles after it. */
  lemma FailedLookupIsolated(docs: seq<UserDoc>, auth: string -> AuthLookup, i: nat)
    requires i < |docs|
    requires auth(docs[i].id) == LookupFailed
    ensures ResolveRecipients(docs, auth) == ResolveRecipients(docs[..i], auth) + ResolveRecipients(docs[i + 1..], auth)
  {
    var before, here, after := docs[..i], [docs[i]], docs[i + 1..];
    assert docs == before + (here + after) by {
      assert docs == docs[..i] + docs[i..];
      assert docs[i..] == here + after;
    }
    calc {
      ResolveRecipients(docs, auth);
      { ResolveConcat(before, here + after, auth); }
      ResolveRecipients(before, auth) + ResolveRecipients(here + after, auth);
      { ResolveConcat(here, after, auth); }
      ResolveRecipients(before, auth) + (ResolveRecipients(here, auth) + ResolveRecipients(after, auth));
      { ResolveSingleton(docs[i], auth); }
      ResolveRecipients(before, auth) + ([] + ResolveRecipients(after, auth));
      { assert [] + ResolveRecipients(after, auth) == ResolveRecipients(after, auth); }
      ResolveRecipients(before, auth) + ResolveRecipients(after, auth);
    }
  }

  /** `fetchUsersWithEmailNotifications` after the query: one lookup per profile, each
      failure caught and skipped. */
  method FetchUsersWithEmailNotifications(docs: seq<UserDoc>, auth: string -> AuthLookup)
    returns (users: seq<Recipient>)
    ensures users == ResolveRecipients(docs, auth)
  {
    users := [];
    var i := 0;
    while i < |docs|
      invariant 0 <= i <= |docs|
      invariant users == ResolveRecipients(docs[..i], auth)
    {
      var found := RecipientFor(docs[i], auth(docs[i].id));
      ResolveConcat(docs[..i], [docs[i]], auth);
      assert docs[..i + 1] == docs[..i] + [docs[i]];
      ResolveSingleton(docs[i], auth);
      if found.Some? {
        users := users + [found.value];
      }
      i := i + 1;
    }
    assert docs[..|docs|] == docs;
  }

  /** One alert message; sender, subject and body are fixed templates around the rate. */
  datatype Alert = Alert(to: string, rate: real)

  /** One send attempt and whether the transport accepted it. */
  datatype Delivery = Delivery(alert: Alert, delivered: bool)

  /** The send attempts of a batch: the `i`-th user gets the `i`-th attempt, whose
      outcome is the transport's answer to the `i`-th call. */
  function Deliveries(users: seq<Recipient>, rate: real, transport: nat -> bool): (log: seq<Delivery>)
    ensures |log| == |users|
  {
    seq(|users|, i requires 0 <= i < |users| => Delivery(Alert(users[i].email, rate), transport(i)))
  }

  /** `sendEmailToUsers`: every user is sent to, in order, whatever the earlier sends
      returned; a failed send is caught and the loop goes on. */
  method SendEmailToUsers(users: seq<Recipient>, rate: real, transport: nat -> bool)
    returns (log: seq<Delivery>)
    ensures |log| == |users|
    ensures forall i :: 0 <= i < |users| ==> log[i].alert == Alert(users[i].email, rate)
    ensures forall i :: 0 <= i < |users| ==> log[i].delivered == transport(i)
    ensures log == Deliveries(users, rate, transport)
  {
    log := [];
    var i := 0;
    while i < |users|
      invariant 0 <= i <= |users|
      invariant |log| == i
      invariant forall k :: 0 <= k < i ==> log[k] == Delivery(Alert(users[k].email, rate), transport(k))
    {
      var ok := transport(i);
      log := log + [Delivery(Alert(users[i].email, rate), ok)];
      i := i + 1;
    }
  }

  /** Send isolation: the outcome of one send neither adds, drops nor redirects any
      other attempt. */
  lemma SendIsolation(users: seq<Recipient>, rate: real, t1: nat -> bool, t2: nat -> bool)
    ensures |Deliveries(users, rate, t1)| == |Deliveries(users, rate, t2)|
    ensures forall i :: 0 <= i < |users| ==> Deliveries(users, rate, t1)[i].alert == Deliveries(users, rate, t2)[i].alert
    ensures forall i :: 0 <= i < |users| && t1(i) == t2(i) ==> Deliveries(users, rate, t1)[i] == Deliveries(users, rate, t2)[i]
  {
  }

  /** The outcomes of the external calls one tick of one category makes. */
  datatype Collaborators = Collaborators(
    storeAccepts: bool,                   // the append of the rate record
    subscribers: Option<seq<UserDoc>>,    // the subscription query; None when it throws
    auth: string -> AuthLookup,           // the identity provider
    transport: nat -> bool)               // the mail transport, call by call

  /** What one tick did: the record it stored, whether it went on to alert, and the
      send attempts it made. */
  datatype TickOutcome = TickOutcome(stored: Option<TouRecord>, alerted: bool, deliveries: seq<Delivery>)

  /** `generateAndStoreTOUData` once the rate is known. Storing and alerting share one
      error boundary: a store failure skips the alert, a query failure ends the tick
      without sends. */
  function StoreAndAlert(c: Category, rate: real, timestamp: string, env: Collaborators): (t: TickOutcome)
    ensures t.stored.Some? <==> env.storeAccepts
    ensures t.stored.Some? ==> t.stored.value == TouRecord(c, rate, timestamp)
    ensures t.alerted <==> env.storeAccepts && rate > RateThreshold
    ensures !t.alerted ==> t.deliveries == []
    ensures t.alerted && env.subscribers.Some? ==>
      t.deliveries == Deliveries(ResolveRecipients(env.subscribers.value, env.auth), rate, env.transport)
    ensures env.subscribers.None? ==> t.deliveries == []
  {
    if !env.storeAccepts then TickOutcome(None, false, [])
    else
      var record := TouRecord(c, rate, timestamp);
      if rate > RateThreshold then
        match env.subscribers
        case None => TickOutcome(Some(record), true, [])
        case Some(docs) =>
          TickOutcome(Some(record), true, Deliveries(ResolveRecipients(docs, env.auth), rate, env.transport))
      else TickOutcome(Some(record), false, [])
  }

  /** The threshold is strict: a stored rate of exactly 10.00 alerts nobody, 10.01 does. */
  lemma ThresholdIsStrict(c: Category, timestamp: string, env: Collaborators)
    requires env.storeAccepts
    ensures !StoreAndAlert(c, 10.0, timestamp, env).alerted
    ensures StoreAndAlert(c, 10.0, timestamp, env).deliveries == []
    ensures StoreAndAlert(c, 10.01, timestamp, env).alerted
  {
  }

  /** One clock reading: hour of day, day of week, zero-based month, ISO-8601 text. */
  datatype Clock = Clock(hour: int, day: int, month: int, timestamp: string)

  /** One tick of one category: compute the rate, then store and alert. */
  function Tick(c: Category, now: Clock, z: real, env: Collaborators): (t: TickOutcome)
    ensures t.stored.Some? <==> env.storeAccepts
    ensures t.stored.Some? ==> t.stored.value.category == c && t.stored.value.timestamp == now.timestamp
    ensures t.stored.Some? ==> t.stored.value.rate == TouRate(c, now.hour, now.day, now.month, z)
    ensures t.alerted <==> env.storeAccepts && TouRate(c, now.hour, now.day, now.month, z) > RateThreshold
  {
    StoreAndAlert(c, TouRate(c, now.hour, now.day, now.month, z), now.timestamp, env)
  }

  /** The records a sequence of ticks stored, in tick order. */
  function StoredRecords(ticks: seq<TickOutcome>): (records: seq<TouRecord>)
    ensures |records| <= |ticks|
  {
    if |ticks| == 0 then []
    else
      (match ticks[0].stored case None => [] case Some(r) => [r]) + StoredRecords(ticks[1..])
  }

  /** The number of categories in `cats` whose store accepted. */
  function AcceptedCount(cats: seq<Category>, env: Category -> Collaborators): nat {
    if |cats| == 0 then 0
    else (if env(cats[0]).storeAccepts then 1 else 0) + AcceptedCount(cats[1..], env)
  }

  /** The scheduled tick (`cron.schedule` every hour at minute 0): DOMESTIC, INDUSTRIAL
      and NON_DOMESTIC each run one tick on their own noise sample and collaborators. */
  method ScheduledTick(now: Clock, noise: Category -> real, env: Category -> Collaborators)
    returns (ticks: seq<TickOutcome>)
    ensures |ticks| == |Categories|
    ensures forall i :: 0 <= i < |Categories| ==>
      ticks[i] == Tick(Categories[i], now, noise(Categories[i]), env(Categories[i]))
  {
    ticks := [];
    var i := 0;
    while i < |Categories|
      invariant 0 <= i <= |Categories|
      invariant |ticks| == i
      invariant forall k :: 0 <= k < i ==> ticks[k] == Tick(Categories[k], now, noise(Categories[k]), env(Categories[k]))
    {
      var c := Categories[i];
      ticks := ticks + [Tick(c, now, noise(c), env(c))];
      i := i + 1;
    }
  }

  /** The records a tick over `cats` is meant to store: for each category whose store
      accepts, in order, the category with its computed rate and the tick's timestamp. */
  function AcceptedRecords(cats: seq<Category>, now: Clock, noise: Category -> real,
                           env: Category -> Collaborators): (records: seq<TouRecord>)
    ensures |records| == AcceptedCount(cats, env)
    ensures forall r :: r in records ==> r.category in cats && env(r.category).storeAccepts
  {
    if |cats| == 0 then []
    else
      var c := cats[0];
      (if env(c).storeAccepts then [TouRecord(c, TouRate(c, now.hour, now.day, now.month, noise(c)), now.timestamp)] else [])
        + AcceptedRecords(cats[1..], now, noise, env)
  }

  /** No two records share a category. */
  predicate DistinctCategories(records: seq<TouRecord>) {
    forall i, j :: 0 <= i < j < |records| ==> records[i].category != records[j].category
  }

  /** Putting a record in front of records of other categories keeps them distinct. */
  lemma ConsDistinct(r: TouRecord, rest: seq<TouRecord>)
    requires DistinctCategories(rest)
    requires forall k :: 0 <= k < |rest| ==> rest[k].category != r.category
    ensures DistinctCategories([r] + rest)
  {
    var records := [r] + rest;
    forall i, j | 0 <= i < j < |records|
      ensures records[i].category != records[j].category
    {
      assert records[j] == rest[j - 1];
      if i > 0 {
        assert records[i] == rest[i - 1];
      }
    }
  }

  /** Over distinct categories, no two of the intended records share a category. */
  lemma {:induction false} AcceptedRecordsDistinct(cats: seq<Category>, now: Clock, noise: Category -> real,
                                                   env: Category -> Collaborators)
    requires forall i, j :: 0 <= i < j < |cats| ==> cats[i] != cats[j]
    ensures DistinctCategories(AcceptedRecords(cats, now, noise, env))
    decreases |cats|
  {
    if |cats| > 0 {
      var c := cats[0];
      var rest := AcceptedRecords(cats[1..], now, noise, env);
      forall i, j | 0 <= i < j < |cats[1..]|
        ensures cats[1..][i] != cats[1..][j]
      {
        assert cats[1..][i] == cats[i + 1] && cats[1..][j] == cats[j + 1];
      }
      AcceptedRecordsDistinct(cats[1..], now, noise, env);
      if env(c).storeAccepts {
        assert c !in cats[1..] by {
          forall i | 0 <= i < |cats[1..]| ensures cats[1..][i] != c {
            assert cats[1..][i] == cats[i + 1];
          }
        }
        forall k | 0 <= k < |rest|
          ensures rest[k].category != c
        {
          assert rest[k] in rest;
        }
        ConsDistinct(TouRecord(c, TouRate(c, now.hour, now.day, now.month, noise(c)), now.timestamp), rest);
      } else {
        assert AcceptedRecords(cats, now, noise, env) == [] + rest;
        assert [] + rest == rest;
      }
    }
  }

  /** A scheduled tick stores exactly the intended records: one for each category whose
      store accepted, in category order, and none for the others. */
  lemma {:induction false} RecordsPerTick(cats: seq<Category>, now: Clock, noise: Category -> real,
                                          env: Category -> Collaborators, ticks: seq<TickOutcome>)
    requires |ticks| == |cats|
    requires forall i :: 0 <= i < |cats| ==> ticks[i] == Tick(cats[i], now, noise(cats[i]), env(cats[i]))
    ensures StoredRecords(ticks) == AcceptedRecords(cats, now, noise, env)
    decreases |cats|
  {
    if |cats| > 0 {
      RecordsPerTick(cats[1..], now, noise, env, ticks[1..]);
    }
  }

  /** One scheduled tick stores at most one record per category: no two stored records
      share a category, and a category whose store failed has none. */
  lemma AtMostOneRecordPerCategory(now: Clock, noise: Category -> real, env: Category -> Collaborators,
                                   ticks: seq<TickOutcome>)
    requires |ticks| == |Categories|
    requires forall i :: 0 <= i < |Categories| ==> ticks[i] == Tick(Categories[i], now, noise(Categories[i]), env(Categories[i]))
    ensures DistinctCategories(StoredRecords(ticks))
    ensures forall r :: r in StoredRecords(ticks) ==> env(r.category).storeAccepts
    ensures |StoredRecords(ticks)| == AcceptedCount(Categories, env) <= 3
  {
    RecordsPerTick(Categories, now, noise, env, ticks);
    AcceptedRecordsDistinct(Categories, now, noise, env);
  }
}
