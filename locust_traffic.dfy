/**
 * The synthetic shop traffic of locustfile_updated.py: the Locust task functions
 * a simulated user runs, each of which issues a fixed sequence of HTTP
 * requests through the user's client, the weight table of `UserBehavior`,
 * its `on_start`, and the diurnal wait time between tasks.
 *
 * Random choices are parameters: `random.choice(s)` is `s[k]` for a drawn
 * index `k < |s|`, and `random.randint(a, b)` is `a + k` for a drawn
 * offset `k <= b - a`.  Faker output is a record of opaque strings.
 */
module LocustTraffic {
  import Diurnal
  import EndpointSimulator

  datatype HttpMethod = Get | Post

  /** A form field value as the Locust task functions pass it: a string or an integer. */
  datatype FormValue = Text(text: string) | Integer(number: int)

  /** One request issued through the user's client. */
  datatype Request = Request(verb: HttpMethod, path: string, form: seq<(string, FormValue)>)

  /** The fixed product catalogue. */
  const Products: seq<string> := [
    "0PUK6V6EV0", "1YMWWN1N4O", "2ZYFJ3GM2N", "66VCHSJNUP", "6E92ZMYYFZ",
    "9SIQT8TOJO", "L9ECAV7KIM", "LS4PSXUNUM", "OLJCESPC7Z"
  ]

  /** The currencies `setCurrency` chooses from. */
  const Currencies: seq<string> := ["EUR", "USD", "JPY", "CAD", "GBP", "TRY"]

  const ProductPrefix: string := "/product/"

  /** `random.choice(s)` with the drawn index `draw`. */
  function Choice(s: seq<string>, draw: nat): (x: string)
    requires draw < |s|
    ensures x in s
  {
    s[draw]
  }

  /** `random.randint(lo, hi)` with the drawn offset `draw`. */
  function RandInt(lo: int, hi: int, draw: nat): (n: int)
    requires draw <= hi - lo
    ensures lo <= n <= hi
  {
    lo + draw
  }

  predicate IsDigit(c: char) { '0' <= c <= '9' }

  function DigitChar(d: nat): (c: char)
    requires d < 10
    ensures IsDigit(c)
  {
    ('0' as int + d) as char
  }

  function DigitValue(c: char): (d: nat)
    requires IsDigit(c)
    ensures d < 10
  {
    assert '0' as int <= c as int <= '9' as int;
    c as int - '0' as int
  }

  /** `f"{n}"` for a natural number: its decimal digits, without leading zeros. */
  function DecimalString(n: nat): (s: string)
    ensures |s| > 0
    ensures forall i :: 0 <= i < |s| ==> IsDigit(s[i])
    ensures |s| > 1 ==> s[0] != '0'
  {
    if n < 10 then [DigitChar(n)]
    else DecimalString(n / 10) + [DigitChar(n % 10)]
  }

  /** The number a string of decimal digits denotes. */
  function DecimalValue(s: string): nat
    requires forall i :: 0 <= i < |s| ==> IsDigit(s[i])
  {
    if s == [] then 0
    else DecimalValue(s[..|s| - 1]) * 10 + DigitValue(s[|s| - 1])
  }

  /** Reading back a formatted number gives the number. */
  lemma {:induction false} DecimalRoundTrip(n: nat)
    ensures DecimalValue(DecimalString(n)) == n
  {
    var s := DecimalString(n);
    if n >= 10 {
      DecimalRoundTrip(n / 10);
      assert s[..|s| - 1] == DecimalString(n / 10);
    }
  }

  /** A number in [100, 999] is written with exactly three digits. */
  lemma {:induction false} ThreeDigits(n: nat)
    requires 100 <= n <= 999
    ensures |DecimalString(n)| == 3
  {
    assert 10 <= n / 10 < 100;
    assert 1 <= n / 100 < 10;
    assert DecimalString(n / 10) == DecimalString(n / 10 / 10) + [DigitChar(n / 10 % 10)];
  }

  /** What Faker produces for a checkout: opaque strings. */
  datatype Customer = Customer(
    email: string,
    streetAddress: string,
    zipCode: string,
    city: string,
    state: string,
    country: string,
    creditCardNumber: string)

  /** The random values a task may draw, each as an index or offset. */
  datatype TaskDraws = TaskDraws(
    product: nat,
    currency: nat,
    quantity: nat,
    month: nat,
    yearOffset: nat,
    cvv: nat)

  /** Each draw lies in the range its `random` call can return. */
  predicate ValidDraws(d: TaskDraws)
  {
    && d.product < |Products|
    && d.currency < |Currencies|
    && d.quantity <= 10 - 1
    && d.month <= 12 - 1
    && d.yearOffset <= 70
    && d.cvv <= 999 - 100
  }

  // ---------------------------------------------------------------------
  // The requests each task function issues, in order.
  // ---------------------------------------------------------------------

  function IndexRequests(): seq<Request>
  {
    [Request(Get, "/", [])]
  }

  function SetCurrencyRequests(d: TaskDraws): seq<Request>
    requires ValidDraws(d)
  {
    [Request(Post, "/setCurrency", [("currency_code", Text(Choice(Currencies, d.currency)))])]
  }

  function BrowseProductRequests(d: TaskDraws): seq<Request>
    requires ValidDraws(d)
  {
    [Request(Get, ProductPrefix + Choice(Products, d.product), [])]
  }

  function ViewCartRequests(): seq<Request>
  {
    [Request(Get, "/cart", [])]
  }

  function AddToCartForm(product: string, quantity: int): seq<(string, FormValue)>
  {
    [("product_id", Text(product)), ("quantity", Integer(quantity))]
  }

  function AddToCartRequests(d: TaskDraws): seq<Request>
    requires ValidDraws(d)
  {
    var product := Choice(Products, d.product);
    [ Request(Get, ProductPrefix + product, []),
      Request(Post, "/cart", AddToCartForm(product, RandInt(1, 10, d.quantity))) ]
  }

  function EmptyCartRequests(): seq<Request>
  {
    [Request(Post, "/cart/empty", [])]
  }

  /** The checkout form; `currentYear` is next year, as `checkout` names it. */
  function CheckoutForm(d: TaskDraws, currentYear: int, c: Customer): seq<(string, FormValue)>
    requires ValidDraws(d)
  {
    [ ("email", Text(c.email)),
      ("street_address", Text(c.streetAddress)),
      ("zip_code", Text(c.zipCode)),
      ("city", Text(c.city)),
      ("state", Text(c.state)),
      ("country", Text(c.country)),
      ("credit_card_number", Text(c.creditCardNumber)),
      ("credit_card_expiration_month", Integer(RandInt(1, 12, d.month))),
      ("credit_card_expiration_year", Integer(RandInt(currentYear, currentYear + 70, d.yearOffset))),
      ("credit_card_cvv", Text(DecimalString(RandInt(100, 999, d.cvv)))) ]
  }

  /** `checkout` in the year `nowYear`: an add-to-cart pair, then the checkout post. */
  function CheckoutRequests(d: TaskDraws, nowYear: int, c: Customer): seq<Request>
    requires ValidDraws(d)
  {
    AddToCartRequests(d) + [Request(Post, "/cart/checkout", CheckoutForm(d, nowYear + 1, c))]
  }

  function LogoutRequests(): seq<Request>
  {
    [Request(Get, "/logout", [])]
  }

  // ---------------------------------------------------------------------
  // The client and the Locust task functions as methods that append to its trace.
  // ---------------------------------------------------------------------

  /** The HTTP client of a simulated user; it records every request it sends. */
  class Client {
    var trace: seq<Request>

    constructor ()
      ensures trace == []
    {
      trace := [];
    }

    method Get(path: string)
      modifies this
      ensures trace == old(trace) + [Request(HttpMethod.Get, path, [])]
    {
      trace := trace + [Request(HttpMethod.Get, path, [])];
    }

    method Post(path: string, form: seq<(string, FormValue)>)
      modifies this
      ensures trace == old(trace) + [Request(HttpMethod.Post, path, form)]
    {
      trace := trace + [Request(HttpMethod.Post, path, form)];
    }
  }

  method Index(l: Client)
    modifies l
    ensures l.trace == old(l.trace) + IndexRequests()
  {
    l.Get("/");
  }

  method SetCurrency(l: Client, d: TaskDraws)
    requires ValidDraws(d)
    modifies l
    ensures l.trace == old(l.trace) + SetCurrencyRequests(d)
  {
    l.Post("/setCurrency", [("currency_code", Text(Choice(Currencies, d.currency)))]);
  }

  method BrowseProduct(l: Client, d: TaskDraws)
    requires ValidDraws(d)
    modifies l
    ensures l.trace == old(l.trace) + BrowseProductRequests(d)
  {
    l.Get(ProductPrefix + Choice(Products, d.product));
  }

  method ViewCart(l: Client)
    modifies l
    ensures l.trace == old(l.trace) + ViewCartRequests()
  {
    l.Get("/cart");
  }

  method AddToCart(l: Client, d: TaskDraws)
    requires ValidDraws(d)
    modifies l
    ensures l.trace == old(l.trace) + AddToCartRequests(d)
  {
    var product := Choice(Products, d.product);
    l.Get(ProductPrefix + product);
    l.Post("/cart", AddToCartForm(product, RandInt(1, 10, d.quantity)));
  }

  method EmptyCart(l: Client)
    modifies l
    ensures l.trace == old(l.trace) + EmptyCartRequests()
  {
    l.Post("/cart/empty", []);
  }

  method Checkout(l: Client, d: TaskDraws, nowYear: int, c: Customer)
    requires ValidDraws(d)
    modifies l
    ensures l.trace == old(l.trace) + CheckoutRequests(d, nowYear, c)
  {
    AddToCart(l, d);
    var currentYear := nowYear + 1;
    l.Post("/cart/checkout", CheckoutForm(d, currentYear, c));
  }

  method Logout(l: Client)
    modifies l
    ensures l.trace == old(l.trace) + LogoutRequests()
  {
    l.Get("/logout");
  }

  // ---------------------------------------------------------------------
  // Properties of the Locust task functions.
  // ---------------------------------------------------------------------

  /**
   * `addToCart` views a catalogue product and then posts that same product
   * to the cart with a quantity between 1 and 10.
   */
  lemma AddToCartShape(d: TaskDraws)
    requires ValidDraws(d)
    ensures var r := AddToCartRequests(d);
      && |r| == 2
      && r[0].verb == Get && r[1].verb == Post && r[1].path == "/cart"
      && |r[0].path| > |ProductPrefix| && r[0].path[..|ProductPrefix|] == ProductPrefix
      && r[0].path[|ProductPrefix|..] in Products
      && |r[1].form| == 2
      && r[1].form[0] == ("product_id", Text(r[0].path[|ProductPrefix|..]))
      && r[1].form[1].0 == "quantity" && r[1].form[1].1.Integer?
      && 1 <= r[1].form[1].1.number <= 10
  {
    var product := Choice(Products, d.product);
    var path := ProductPrefix + product;
    assert path[..|ProductPrefix|] == ProductPrefix;
    assert path[|ProductPrefix|..] == product;
  }

  /**
   * `checkout` first issues the `addToCart` pair and then posts the
   * checkout form, whose expiration month lies in [1, 12], whose
   * expiration year lies in [Y + 1, Y + 71] for the current year Y, and
   * whose CVV is a three-digit decimal string of a number in [100, 999].
   */
  lemma CheckoutShape(d: TaskDraws, nowYear: int, c: Customer)
    requires ValidDraws(d)
    ensures var r := CheckoutRequests(d, nowYear, c);
      && |r| == 3
      && r[..2] == AddToCartRequests(d)
      && r[2].verb == Post && r[2].path == "/cart/checkout"
      && |r[2].form| == 10
      && r[2].form[7].0 == "credit_card_expiration_month" && r[2].form[7].1.Integer?
      && 1 <= r[2].form[7].1.number <= 12
      && r[2].form[8].0 == "credit_card_expiration_year" && r[2].form[8].1.Integer?
      && nowYear + 1 <= r[2].form[8].1.number <= nowYear + 71
      && r[2].form[9].0 == "credit_card_cvv" && r[2].form[9].1.Text?
      && |r[2].form[9].1.text| == 3
      && (forall i :: 0 <= i < 3 ==> IsDigit(r[2].form[9].1.text[i]))
      && 100 <= DecimalValue(r[2].form[9].1.text) <= 999
  {
    var cvv := RandInt(100, 999, d.cvv);
    ThreeDigits(cvv);
    DecimalRoundTrip(cvv);
  }

  // ---------------------------------------------------------------------
  // The `UserBehavior.tasks` table, `on_start`, and whole sessions.
  // ---------------------------------------------------------------------

  /** The functions scheduled by `UserBehavior.tasks`. */
  datatype Task = IndexTask | SetCurrencyTask | BrowseProductTask | AddToCartTask | ViewCartTask | CheckoutTask

  /** `UserBehavior.tasks`, in its insertion order. */
  const TaskWeights: seq<(Task, int)> := [
    (IndexTask, 1), (SetCurrencyTask, 2), (BrowseProductTask, 10),
    (AddToCartTask, 2), (ViewCartTask, 3), (CheckoutTask, 1)
  ]

  /** The Python name of a task function. */
  function TaskName(t: Task): string
  {
    match t
    case IndexTask => "index"
    case SetCurrencyTask => "setCurrency"
    case BrowseProductTask => "browseProduct"
    case AddToCartTask => "addToCart"
    case ViewCartTask => "viewCart"
    case CheckoutTask => "checkout"
  }

  /**
   * The locust task table and the simulator's endpoint table agree entry
   * by entry, in name, weight and order, so both total 19.
   */
  lemma TaskTableMatchesEndpointTable()
    ensures |TaskWeights| == |EndpointSimulator.Endpoints|
    ensures forall i :: 0 <= i < |TaskWeights| ==>
              && TaskName(TaskWeights[i].0) == EndpointSimulator.Endpoints[i].name
              && TaskWeights[i].1 == EndpointSimulator.Endpoints[i].weight
    ensures forall i, j :: 0 <= i < j < |TaskWeights| ==> TaskWeights[i].0 != TaskWeights[j].0
    ensures EndpointSimulator.TotalWeight(EndpointSimulator.Endpoints) == 19
  {
    EndpointSimulator.EndpointTableFacts();
  }

  /** One task run by the locust scheduler, with the values it draws. */
  datatype TaskRun = TaskRun(task: Task, draws: TaskDraws, nowYear: int, customer: Customer)

  predicate ValidRun(run: TaskRun) { ValidDraws(run.draws) }

  /** The requests one run of a task issues. */
  function TaskRequests(run: TaskRun): seq<Request>
    requires ValidRun(run)
  {
    match run.task
    case IndexTask => IndexRequests()
    case SetCurrencyTask => SetCurrencyRequests(run.draws)
    case BrowseProductTask => BrowseProductRequests(run.draws)
    case AddToCartTask => AddToCartRequests(run.draws)
    case ViewCartTask => ViewCartRequests()
    case CheckoutTask => CheckoutRequests(run.draws, run.nowYear, run.customer)
  }

  /** Runs one scheduled task on the user's client. */
  method ExecuteTask(l: Client, run: TaskRun)
    requires ValidRun(run)
    modifies l
    ensures l.trace == old(l.trace) + TaskRequests(run)
  {
    match run.task
    case IndexTask => Index(l);
    case SetCurrencyTask => SetCurrency(l, run.draws);
    case BrowseProductTask => BrowseProduct(l, run.draws);
    case AddToCartTask => AddToCart(l, run.draws);
    case ViewCartTask => ViewCart(l);
    case CheckoutTask => Checkout(l, run.draws, run.nowYear, run.customer);
  }

  /** `UserBehavior.on_start`: a new user first loads the index page. */
  method OnStart(l: Client)
    modifies l
    ensures l.trace == old(l.trace) + IndexRequests()
  {
    Index(l);
  }

  /** The requests of a sequence of task runs, in order. */
  function RunsRequests(runs: seq<TaskRun>): seq<Request>
    requires forall k :: 0 <= k < |runs| ==> ValidRun(runs[k])
  {
    if runs == [] then []
    else RunsRequests(runs[..|runs| - 1]) + TaskRequests(runs[|runs| - 1])
  }

  /** A whole user session: `on_start`, then the scheduled task runs. */
  function SessionRequests(runs: seq<TaskRun>): (r: seq<Request>)
    requires forall k :: 0 <= k < |runs| ==> ValidRun(runs[k])
    ensures |r| > 0 && r[0] == Request(Get, "/", [])
  {
    IndexRequests() + RunsRequests(runs)
  }

  /** A path of the form `/product/<id>` with `id` from the catalogue. */
  predicate IsProductPath(path: string)
  {
    |path| > |ProductPrefix| && path[..|ProductPrefix|] == ProductPrefix && path[|ProductPrefix|..] in Products
  }

  /** The `addToCart` form: a catalogue product id and a quantity in [1, 10]. */
  predicate IsCartForm(form: seq<(string, FormValue)>)
  {
    && |form| == 2
    && form[0].0 == "product_id" && form[0].1.Text? && form[0].1.text in Products
    && form[1].0 == "quantity" && form[1].1.Integer? && 1 <= form[1].1.number <= 10
  }

  /**
   * The `checkout` form: ten fields, an expiration month in [1, 12] and a
   * three-digit CVV.
   */
  predicate IsCheckoutForm(form: seq<(string, FormValue)>)
  {
    && |form| == 10
    && form[7].0 == "credit_card_expiration_month" && form[7].1.Integer?
    && 1 <= form[7].1.number <= 12
    && form[9].0 == "credit_card_cvv" && form[9].1.Text? && |form[9].1.text| == 3
    && (forall i :: 0 <= i < 3 ==> IsDigit(form[9].1.text[i]))
  }

  /**
   * A request the shop's front end serves: one of `GET /`, `POST
   * /setCurrency` with a listed currency code, `GET /product/<id>` for a
   * catalogue product, `POST /cart` with a catalogue product and a
   * quantity in [1, 10], `GET /cart`, `POST /cart/empty`, `POST
   * /cart/checkout` with a valid month and CVV, and `GET /logout`; the
   * GETs and the cart emptying carry no form.
   */
  predicate IsSiteOperation(r: Request)
  {
    || (r.verb == Get && r.path == "/" && r.form == [])
    || (r.verb == Post && r.path == "/setCurrency"
        && |r.form| == 1 && r.form[0].0 == "currency_code"
        && r.form[0].1.Text? && r.form[0].1.text in Currencies)
    || (r.verb == Get && IsProductPath(r.path) && r.form == [])
    || (r.verb == Post && r.path == "/cart" && IsCartForm(r.form))
    || (r.verb == Get && r.path == "/cart" && r.form == [])
    || (r.verb == Post && r.path == "/cart/empty" && r.form == [])
    || (r.verb == Post && r.path == "/cart/checkout" && IsCheckoutForm(r.form))
    || (r.verb == Get && r.path == "/logout" && r.form == [])
  }

  lemma ProductPathOf(d: TaskDraws)
    requires ValidDraws(d)
    ensures IsProductPath(ProductPrefix + Choice(Products, d.product))
  {
    var path := ProductPrefix + Choice(Products, d.product);
    assert path[..|ProductPrefix|] == ProductPrefix;
    assert path[|ProductPrefix|..] == Choice(Products, d.product);
  }

  /** Every request a task run issues is a site operation. */
  lemma TaskRequestsAreSiteOperations(run: TaskRun)
    requires ValidRun(run)
    ensures forall i :: 0 <= i < |TaskRequests(run)| ==> IsSiteOperation(TaskRequests(run)[i])
  {
    ProductPathOf(run.draws);
    AddToCartShape(run.draws);
    if run.task == CheckoutTask {
      CheckoutShape(run.draws, run.nowYear, run.customer);
    }
  }

  /**
   * Every request of a user session is a site operation: product ids come
   * from the catalogue and currency codes from the currency list.
   */
  lemma {:induction false} SessionRequestsAreSiteOperations(runs: seq<TaskRun>)
    requires forall k :: 0 <= k < |runs| ==> ValidRun(runs[k])
    ensures forall i :: 0 <= i < |SessionRequests(runs)| ==> IsSiteOperation(SessionRequests(runs)[i])
  {
    RunsRequestsAreSiteOperations(runs);
  }

  lemma {:induction false} RunsRequestsAreSiteOperations(runs: seq<TaskRun>)
    requires forall k :: 0 <= k < |runs| ==> ValidRun(runs[k])
    ensures forall i :: 0 <= i < |RunsRequests(runs)| ==> IsSiteOperation(RunsRequests(runs)[i])
  {
    if runs != [] {
      var init := runs[..|runs| - 1];
      RunsRequestsAreSiteOperations(init);
      TaskRequestsAreSiteOperations(runs[|runs| - 1]);
    }
  }

  // ---------------------------------------------------------------------
  // The wait time between tasks.
  // ---------------------------------------------------------------------

  /** `now.hour * 60 + now.minute + now.second / 60.0`. */
  function ClockMinute(hour: int, minute: int, second: int): (m: real)
    requires 0 <= hour < 24 && 0 <= minute < 60 && 0 <= second < 60
    ensures 0.0 <= m < Diurnal.MinutesPerDay
    ensures Diurnal.MinutesOfDay(m) == m
  {
    var m := (hour * 60 + minute) as real + second as real / 60.0;
    Diurnal.MinutesOfDayWithinDay(m);
    m
  }

  /**
   * `diurnal_wait_time` at wall-clock time hour:minute:second, with the
   * two peak shifts drawn by `random.uniform(-10, 10)` and the noise drawn
   * by `random.random()`.  The rate lies in (45, 100), so the fallback of
   * 60 seconds is never taken and the wait lies in (0.6, 60/45).
   */
  function DiurnalWaitTime(exp: real -> real, hour: int, minute: int, second: int,
                           shift1: real, shift2: real, noiseDraw: real): (wait: real)
    requires Diurnal.IsExpOnNonPositive(exp)
    requires 0 <= hour < 24 && 0 <= minute < 60 && 0 <= second < 60
    requires -10.0 <= shift1 <= 10.0 && -10.0 <= shift2 <= 10.0
    requires 0.0 <= noiseDraw < 1.0
    ensures wait > 0.0
    ensures wait * Diurnal.Rate(exp, ClockMinute(hour, minute, second), shift1, shift2, noiseDraw) == 60.0
    ensures 0.6 < wait < 60.0 / 45.0
    ensures wait != Diurnal.FallbackDelay
  {
    var currentMinute := ClockMinute(hour, minute, second);
    var minutesOfDay := Diurnal.MinutesOfDay(currentMinute);
    var rate := Diurnal.Rate(exp, minutesOfDay, shift1, shift2, noiseDraw);
    Diurnal.RateBand(exp, minutesOfDay, shift1, shift2, noiseDraw);
    Diurnal.DelayBand(rate);
    Diurnal.DelayForRate(rate)
  }
}
