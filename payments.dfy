/**
 * The wallet, the payment-method registry and the three payment handlers of the
 * Factory demo (src/creational/factory/definition.js).
 *
 * Amounts are integers. A thrown `Error` becomes an `Err`/`Fail` carrying an
 * `Error` value whose `Message` is the text the JavaScript throws.
 */
module Payments {
  import opened Wrappers

  // ---------------------------------------------------------------------------
  // Errors
  // ---------------------------------------------------------------------------

  /** What the wallet, the handlers and the factory throw. */
  datatype Error =
    | NonPositiveDeposit
    | NonPositiveWithdrawal
      /** Thrown by the wallet itself; `what` is "cash" or the currency code. */
    | InsufficientBalance(what: string)
      /** Thrown by a payment handler's own balance check. */
    | InsufficientInWallet(what: string)
    | UnsupportedMethod(tag: string)

  /** The message of the JavaScript `Error` for each case. */
  function Message(e: Error): string {
    match e
    case NonPositiveDeposit => "Deposit amount must be positive"
    case NonPositiveWithdrawal => "Withdrawal amount must be positive"
    case InsufficientBalance(what) => "Insufficient " + what + " balance"
    case InsufficientInWallet(what) => "Insufficient " + what + " balance in wallet"
    case UnsupportedMethod(tag) => "Unsupported payment method: " + tag
  }

  // ---------------------------------------------------------------------------
  // The ledger: the value a wallet holds
  // ---------------------------------------------------------------------------

  /** Where a balance is held: the cash pool, or one crypto currency by its code. */
  datatype Denomination = Cash | Crypto(code: string)

  /** How a denomination is named in the wallet's and the handlers' messages. */
  function Label(d: Denomination): string {
    match d
    case Cash => "cash"
    case Crypto(code) => code
  }

  /** A snapshot of a wallet: what `getWalletSummary` returns. */
  datatype Ledger = Ledger(cash: int, crypto: map<string, int>)

  /** The object invariant of a wallet: no balance is negative. */
  ghost predicate Solvent(l: Ledger) {
    l.cash >= 0 && forall code :: code in l.crypto ==> l.crypto[code] >= 0
  }

  /** The balance held in `d`; a currency never deposited holds 0 (`get(code) || 0`). */
  function Balance(l: Ledger, d: Denomination): int {
    match d
    case Cash => l.cash
    case Crypto(code) => if code in l.crypto then l.crypto[code] else 0
  }

  /** `l` with the balance of `d` set to `v`: `#cashBalance = v` or `#cryptoBalances.set(code, v)`. */
  function WithBalance(l: Ledger, d: Denomination, v: int): (r: Ledger)
    ensures Balance(r, d) == v
    ensures forall e :: e != d ==> Balance(r, e) == Balance(l, e)
    ensures d.Cash? ==> r.crypto == l.crypto
    ensures d.Crypto? ==> r.cash == l.cash && r.crypto == l.crypto[d.code := v]
  {
    match d
    case Cash => l.(cash := v)
    case Crypto(code) => l.(crypto := l.crypto[code := v])
  }

  /** `depositCash(amount)` (d = Cash) and `depositCrypto(code, amount)` (d = Crypto(code)). */
  function Deposit(l: Ledger, d: Denomination, amount: int): (r: Result<Ledger, Error>)
    ensures r.Err? <==> amount <= 0
    ensures r.Err? ==> r.error == NonPositiveDeposit
    ensures r.Ok? ==> Balance(r.value, d) == Balance(l, d) + amount
    ensures r.Ok? ==> forall e :: e != d ==> Balance(r.value, e) == Balance(l, e)
    ensures r.Ok? && Solvent(l) ==> Solvent(r.value)
    ensures r.Ok? ==> r.value.crypto.Keys == l.crypto.Keys + (if d.Crypto? then {d.code} else {})
    ensures r.Ok? && d.Cash? ==> r.value.crypto == l.crypto
  {
    if amount <= 0 then Err(NonPositiveDeposit)
    else Ok(WithBalance(l, d, Balance(l, d) + amount))
  }

  /** `withdrawCash(amount)` (d = Cash) and `withdrawCrypto(code, amount)` (d = Crypto(code)). */
  function Withdraw(l: Ledger, d: Denomination, amount: int): (r: Result<Ledger, Error>)
    ensures r.Err? <==> amount <= 0 || amount > Balance(l, d)
    ensures amount <= 0 ==> r == Err(NonPositiveWithdrawal)
    ensures 0 < amount && amount > Balance(l, d) ==> r == Err(InsufficientBalance(Label(d)))
    ensures r.Ok? ==> Balance(r.value, d) == Balance(l, d) - amount >= 0
    ensures r.Ok? ==> forall e :: e != d ==> Balance(r.value, e) == Balance(l, e)
    ensures r.Ok? && Solvent(l) ==> Solvent(r.value)
    ensures r.Ok? ==> r.value.crypto.Keys == l.crypto.Keys
    ensures r.Ok? && d.Cash? ==> r.value.crypto == l.crypto
  {
    if amount <= 0 then Err(NonPositiveWithdrawal)
    else if amount > Balance(l, d) then Err(InsufficientBalance(Label(d)))
    else Ok(WithBalance(l, d, Balance(l, d) - amount))
  }

  /** The texts the wallet throws, for cash and for a currency `code`. */
  lemma WalletMessages(l: Ledger, code: string, amount: int)
    ensures amount <= 0 ==> Message(Deposit(l, Cash, amount).error) == "Deposit amount must be positive"
    ensures amount <= 0 ==> Message(Withdraw(l, Crypto(code), amount).error) == "Withdrawal amount must be positive"
    ensures 0 < amount && amount > l.cash ==> Message(Withdraw(l, Cash, amount).error) == "Insufficient cash balance"
    ensures 0 < amount && amount > Balance(l, Crypto(code)) ==>
              Message(Withdraw(l, Crypto(code), amount).error) == "Insufficient " + code + " balance"
  {
  }

  /**
   * A withdrawal of what was just deposited restores every balance; the ledger
   * itself comes back unless the deposit opened a new currency at 0.
   */
  lemma WithdrawUndoesDeposit(l: Ledger, d: Denomination, amount: int)
    requires Solvent(l) && amount > 0
    ensures Deposit(l, d, amount).Ok?
    ensures var back := Withdraw(Deposit(l, d, amount).value, d, amount);
            && back.Ok?
            && (forall e :: Balance(back.value, e) == Balance(l, e))
            && (d.Cash? || d.code in l.crypto ==> back.value == l)
  {
  }

  // ---------------------------------------------------------------------------
  // Wallet
  // ---------------------------------------------------------------------------

  /** The mutable wallet: `#cashBalance` and `#cryptoBalances`. */
  class Wallet {
    var cashBalance: int
    var cryptoBalances: map<string, int>

    ghost predicate Valid()
      reads this
    {
      cashBalance >= 0 && forall code :: code in cryptoBalances ==> cryptoBalances[code] >= 0
    }

    /** `new Wallet()`: the field initialisers. */
    constructor ()
      ensures Valid()
      ensures Summary() == Ledger(0, map[])
    {
      cashBalance := 0;
      cryptoBalances := map[];
    }

    /** `getWalletSummary()`: a snapshot that agrees with both getters. */
    function Summary(): (l: Ledger)
      reads this
      ensures Balance(l, Cash) == CashBalance()
      ensures forall code :: Balance(l, Crypto(code)) == CryptoBalance(code)
      ensures Valid() <==> Solvent(l)
    {
      Ledger(cashBalance, cryptoBalances)
    }

    /** `getCashBalance()`. */
    function CashBalance(): (b: int)
      reads this
      ensures Valid() ==> b >= 0
    {
      cashBalance
    }

    /** `getCryptoBalance(code)`: 0 for a currency never deposited. */
    function CryptoBalance(code: string): (b: int)
      reads this
      ensures code !in cryptoBalances ==> b == 0
      ensures code in cryptoBalances ==> b == cryptoBalances[code]
      ensures Valid() ==> b >= 0
    {
      if code in cryptoBalances then cryptoBalances[code] else 0
    }

    /** `getCryptoBalances()`. */
    function CryptoBalances(): (m: map<string, int>)
      reads this
      ensures forall code :: code in m ==> m[code] == CryptoBalance(code)
      ensures forall code :: code !in m ==> CryptoBalance(code) == 0
    {
      cryptoBalances
    }

    method DepositCash(amount: int) returns (r: Outcome<Error>)
      requires Valid()
      modifies this
      ensures Valid()
      ensures r == Completion(Deposit(old(Summary()), Cash, amount))
      ensures Summary() == Deposit(old(Summary()), Cash, amount).GetOr(old(Summary()))
    {
      if amount <= 0 {
        return Fail(NonPositiveDeposit);
      }
      cashBalance := cashBalance + amount;
      r := Pass;
    }

    method WithdrawCash(amount: int) returns (r: Outcome<Error>)
      requires Valid()
      modifies this
      ensures Valid()
      ensures r == Completion(Withdraw(old(Summary()), Cash, amount))
      ensures Summary() == Withdraw(old(Summary()), Cash, amount).GetOr(old(Summary()))
    {
      if amount <= 0 {
        return Fail(NonPositiveWithdrawal);
      }
      if amount > cashBalance {
        return Fail(InsufficientBalance("cash"));
      }
      cashBalance := cashBalance - amount;
      r := Pass;
    }

    method DepositCrypto(code: string, amount: int) returns (r: Outcome<Error>)
      requires Valid()
      modifies this
      ensures Valid()
      ensures r == Completion(Deposit(old(Summary()), Crypto(code), amount))
      ensures Summary() == Deposit(old(Summary()), Crypto(code), amount).GetOr(old(Summary()))
    {
      if amount <= 0 {
        return Fail(NonPositiveDeposit);
      }
      var current := if code in cryptoBalances then cryptoBalances[code] else 0;
      cryptoBalances := cryptoBalances[code := current + amount];
      r := Pass;
    }

    method WithdrawCrypto(code: string, amount: int) returns (r: Outcome<Error>)
      requires Valid()
      modifies this
      ensures Valid()
      ensures r == Completion(Withdraw(old(Summary()), Crypto(code), amount))
      ensures Summary() == Withdraw(old(Summary()), Crypto(code), amount).GetOr(old(Summary()))
    {
      if amount <= 0 {
        return Fail(NonPositiveWithdrawal);
      }
      var current := if code in cryptoBalances then cryptoBalances[code] else 0;
      if amount > current {
        return Fail(InsufficientBalance(code));
      }
      cryptoBalances := cryptoBalances[code := current - amount];
      r := Pass;
    }
  }

  /** The static `Wallet.#instance` slot, made an explicit object. */
  class WalletSlot {
    var instance: Wallet?

    constructor ()
      ensures instance == null
    {
      instance := null;
    }

    /** `Wallet.getInstance()`: creates the wallet on the first call only. */
    method GetInstance() returns (w: Wallet)
      modifies this
      ensures instance == w
      ensures old(instance) != null ==> w == old(instance)
      ensures old(instance) == null ==> fresh(w) && w.Valid() && w.Summary() == Ledger(0, map[])
    {
      if instance == null {
        instance := new Wallet();
      }
      w := instance;
    }
  }

  // ---------------------------------------------------------------------------
  // Payment handlers
  // ---------------------------------------------------------------------------

  /** The three handler classes a tag can be registered with. */
  datatype Kind = CashTender | PayPalPayment | CryptoPayment

  /** The `config` object a handler is created with; absent fields are `None`. */
  datatype Config = Config(name: string, email: Option<string>, password: Option<string>, cryptoType: Option<string>)

  /** A handler instance: `new paymentClass(config)`. */
  datatype Handler = Handler(kind: Kind, config: Config)

  /** The record a handler passes to `logReipt`. */
  datatype Receipt = Receipt(name: string, paymentMethod: string, amount: int, remainingBalance: int)

  /** A successful payment: the wallet afterwards and the receipt. */
  datatype Settlement = Settlement(ledger: Ledger, receipt: Receipt)

  /** How a template literal renders an optional field: `undefined` when absent. */
  function Shown(o: Option<string>): (r: string)
    ensures o.Some? ==> r == o.value
    ensures o.None? ==> r == "undefined"
  {
    if o.Some? then o.value else "undefined"
  }

  /** The denomination a handler checks and debits; `None` for a crypto handler without `cryptoType`. */
  function Debits(h: Handler): Option<Denomination> {
    match h.kind
    case CashTender => Some(Cash)
    case PayPalPayment => Some(Cash)
    case CryptoPayment => if h.config.cryptoType.Some? then Some(Crypto(h.config.cryptoType.value)) else None
  }

  /** The receipt fields each handler fills in. */
  function ReceiptFor(h: Handler, amount: int, remaining: int): (r: Receipt)
    ensures r.amount == amount && r.remainingBalance == remaining
    ensures h.kind != PayPalPayment ==> r.name == h.config.name
    ensures h.kind == PayPalPayment ==> r.name == "<" + h.config.name + "> (" + Shown(h.config.email) + ")"
    ensures r.paymentMethod == "Cash" <==> h.kind == CashTender
    ensures r.paymentMethod == "PayPal" <==> h.kind == PayPalPayment
    ensures h.kind == CryptoPayment ==> r.paymentMethod == "Crypto (" + Shown(h.config.email) + ")"
  {
    assert ("Crypto (" + Shown(h.config.email) + ")")[1] == 'r';
    match h.kind
    case CashTender => Receipt(h.config.name, "Cash", amount, remaining)
    case PayPalPayment => Receipt("<" + h.config.name + "> (" + Shown(h.config.email) + ")", "PayPal", amount, remaining)
    case CryptoPayment => Receipt(h.config.name, "Crypto (" + Shown(h.config.email) + ")", amount, remaining)
  }

  /**
   * `processPayment(amount, wallet)` on the wallet's value: the handler's own
   * balance check, then the wallet's withdrawal, then the receipt. A crypto
   * handler without `cryptoType` looks up `undefined`, whose balance is 0.
   */
  function Pay(h: Handler, amount: int, l: Ledger): (r: Result<Settlement, Error>)
    ensures r.Ok? <==> Debits(h).Some? && 0 < amount <= Balance(l, Debits(h).value)
    ensures Solvent(l) && amount <= 0 ==> r == Err(NonPositiveWithdrawal)
    ensures Debits(h).Some? && amount > Balance(l, Debits(h).value) ==> r == Err(InsufficientInWallet(Label(Debits(h).value)))
    ensures Debits(h).None? && amount > 0 ==> r == Err(InsufficientInWallet("undefined"))
    ensures r.Ok? ==> r.value.receipt.amount == amount
    ensures r.Ok? ==> r.value.receipt == ReceiptFor(h, amount, r.value.receipt.remainingBalance)
    ensures r.Ok? ==> Balance(r.value.ledger, Debits(h).value) == Balance(l, Debits(h).value) - amount
    ensures r.Ok? ==> r.value.receipt.remainingBalance == Balance(r.value.ledger, Debits(h).value)
    ensures r.Ok? ==> forall e :: e != Debits(h).value ==> Balance(r.value.ledger, e) == Balance(l, e)
    ensures r.Ok? && h.kind != CryptoPayment ==> r.value.ledger.crypto == l.crypto
    ensures r.Ok? && h.kind == CryptoPayment ==> r.value.ledger.cash == l.cash
    ensures r.Ok? && Solvent(l) ==> Solvent(r.value.ledger)
    ensures r.Ok? ==> Withdraw(l, Debits(h).value, amount) == Ok(r.value.ledger)
    ensures r.Ok? ==> r.value.ledger.crypto.Keys == l.crypto.Keys
  {
    match Debits(h)
    case None =>
      if 0 < amount then Err(InsufficientInWallet("undefined")) else Err(NonPositiveWithdrawal)
    case Some(d) =>
      if Balance(l, d) < amount then Err(InsufficientInWallet(Label(d)))
      else
        match Withdraw(l, d, amount)
        case Err(e) => Err(e)
        case Ok(after) => Ok(Settlement(after, ReceiptFor(h, amount, Balance(after, d))))
  }

  /** The text the cash and PayPal handlers throw when cash is short. */
  lemma CashHandlerMessage(h: Handler, amount: int, l: Ledger)
    requires h.kind != CryptoPayment && 0 < amount && amount > l.cash
    ensures Pay(h, amount, l).Err? && Message(Pay(h, amount, l).error) == "Insufficient cash balance in wallet"
  {
    assert Debits(h) == Some(Cash);
    assert Pay(h, amount, l) == Err(InsufficientInWallet("cash"));
    assert "Insufficient " + "cash" + " balance in wallet" == "Insufficient cash balance in wallet";
  }

  /** The text the crypto handler throws when its currency, or `undefined`, is short. */
  lemma CryptoHandlerMessage(h: Handler, amount: int, l: Ledger)
    requires h.kind == CryptoPayment && 0 < amount
    requires h.config.cryptoType.Some? ==> amount > Balance(l, Crypto(h.config.cryptoType.value))
    ensures Pay(h, amount, l).Err?
    ensures Message(Pay(h, amount, l).error) == "Insufficient " + Shown(h.config.cryptoType) + " balance in wallet"
  {
    if h.config.cryptoType.Some? {
      assert Debits(h) == Some(Crypto(h.config.cryptoType.value));
    }
  }

  /** `processPayment(amount, wallet)`, calling the wallet's methods in the source's order. */
  method ProcessPayment(h: Handler, amount: int, wallet: Wallet) returns (r: Result<Receipt, Error>)
    requires wallet.Valid()
    modifies wallet
    ensures wallet.Valid()
    ensures Pay(h, amount, old(wallet.Summary())).Ok? ==>
              r == Ok(Pay(h, amount, old(wallet.Summary())).value.receipt) &&
              wallet.Summary() == Pay(h, amount, old(wallet.Summary())).value.ledger
    ensures Pay(h, amount, old(wallet.Summary())).Err? ==>
              r == Err(Pay(h, amount, old(wallet.Summary())).error) &&
              wallet.Summary() == old(wallet.Summary())
  {
    if h.kind == CryptoPayment {
      var code := h.config.cryptoType;
      var balance := if code.Some? then wallet.CryptoBalance(code.value) else 0;
      if balance < amount {
        return Err(InsufficientInWallet(Shown(code)));
      }
      if code.None? {
        // withdrawCrypto(undefined, amount) with amount <= 0
        return Err(NonPositiveWithdrawal);
      }
      var o := wallet.WithdrawCrypto(code.value, amount);
      if o.Fail? {
        return Err(o.error);
      }
      r := Ok(ReceiptFor(h, amount, wallet.CryptoBalance(code.value)));
    } else {
      if wallet.CashBalance() < amount {
        return Err(InsufficientInWallet("cash"));
      }
      var o := wallet.WithdrawCash(amount);
      if o.Fail? {
        return Err(o.error);
      }
      r := Ok(ReceiptFor(h, amount, wallet.CashBalance()));
    }
  }

  // ---------------------------------------------------------------------------
  // PaymentFactory
  // ---------------------------------------------------------------------------

  /** The static `PaymentFactory.#registry`, made an explicit object. */
  class PaymentFactory {
    var registry: map<string, Kind>

    constructor ()
      ensures registry == map[]
    {
      registry := map[];
    }

    /** `registerPaymentMethod(tag, kind)`: adds or silently replaces the entry for `tag`. */
    method RegisterPaymentMethod(tag: string, kind: Kind)
      modifies this
      ensures registry == old(registry)[tag := kind]
    {
      registry := registry[tag := kind];
    }

    /** `createPaymentMethod(tag, config)`: a new handler of the registered kind. */
    function CreatePaymentMethod(tag: string, config: Config): (r: Result<Handler, Error>)
      reads this
      ensures r.Ok? <==> tag in registry
      ensures r.Ok? ==> r.value.kind == registry[tag] && r.value.config == config
      ensures r.Err? ==> r.error == UnsupportedMethod(tag) && Message(r.error) == "Unsupported payment method: " + tag
    {
      if tag in registry then Ok(Handler(registry[tag], config)) else Err(UnsupportedMethod(tag))
    }
  }

  // ---------------------------------------------------------------------------
  // The demo's own use (src/creational/factory/script.js), checked statically
  // ---------------------------------------------------------------------------

  /** `loadWallet()` and `addPaymentMethodsInRegistry()`. */
  method LoadDemo() returns (slot: WalletSlot, wallet: Wallet, factory: PaymentFactory)
    ensures fresh(slot) && fresh(wallet) && fresh(factory)
    ensures wallet.Valid() && slot.instance == wallet
    ensures wallet.Summary() == Ledger(500, map["BTC" := 87, "ETH" := 7, "LIT" := 12])
    ensures factory.registry == map["CASH" := CashTender, "PAYPAL" := PayPalPayment, "CRYPTO" := CryptoPayment]
  {
    slot := new WalletSlot();
    wallet := slot.GetInstance();
    var o := wallet.DepositCash(500);
    o := wallet.DepositCrypto("BTC", 87);
    o := wallet.DepositCrypto("ETH", 7);
    o := wallet.DepositCrypto("LIT", 12);
    factory := new PaymentFactory();
    factory.RegisterPaymentMethod("CASH", CashTender);
    factory.RegisterPaymentMethod("PAYPAL", PayPalPayment);
    factory.RegisterPaymentMethod("CRYPTO", CryptoPayment);
  }

  /** A cash payment and an unknown tag against the demo wallet, and the wallet singleton. */
  method CashScenario()
  {
    var slot, wallet, factory := LoadDemo();
    assert factory.CreatePaymentMethod("UNKNOWN", Config("A", None, None, None)) == Err(UnsupportedMethod("UNKNOWN"));

    var cash := factory.CreatePaymentMethod("CASH", Config("John Doe", None, None, None));
    var paid := ProcessPayment(cash.value, 100, wallet);
    assert paid == Ok(Receipt("John Doe", "Cash", 100, 400));
    assert wallet.CashBalance() == 400 && wallet.CryptoBalance("BTC") == 87;

    var again := slot.GetInstance();
    assert again == wallet;
  }

  /** Crypto payments against the demo wallet: one over the balance, one within it. */
  method CryptoScenario()
  {
    var slot, wallet, factory := LoadDemo();
    var crypto := factory.CreatePaymentMethod("CRYPTO", Config("A", None, None, Some("BTC")));
    var paid := ProcessPayment(crypto.value, 90, wallet);
    assert paid == Err(InsufficientInWallet("BTC"));
    assert wallet.CryptoBalance("BTC") == 87 && wallet.CashBalance() == 500;

    paid := ProcessPayment(crypto.value, 7, wallet);
    assert wallet.CryptoBalance("BTC") == 80;
    assert "Crypto (" + Shown(None) + ")" == "Crypto (undefined)";
    assert paid == Ok(Receipt("A", "Crypto (undefined)", 7, 80));
    assert wallet.CashBalance() == 500;
  }
}
