/**
 * The current revision's `Plugin` (src/lib/Plugin.php): the record of the signed-in user
 * loaded from the plugin store, the login gate, and the upgrade dispatch. The store that
 * `pluginOperation` reads and writes is a map from user id to record.
 */
module Plugin {
  import opened Wrappers
  import opened Models
  import opened Host
  import opened PhpNumbers

  /** The default route of the second-factor page. */
  const LOGIN_REDIRECT: string := "index.php?r=authenticatorLogin/index"
  /** The route handed to a redirect callable. */
  const LOGIN_ROUTE: string := "authenticatorLogin/index"

  /** Whether a login must pass the second factor: a record exists and has 2FA on. */
  predicate RequiresSecondFactor(data: Option<Record>) {
    data.Some? && data.value.IsTwofaEnabled()
  }

  /**
   * The redirect `checkLogin` stores: the callable's result for the route when the login
   * event supplies one, the default route otherwise.
   */
  function LoginRedirect(callable: Option<string -> string>): (url: string)
    ensures callable.None? ==> url == LOGIN_REDIRECT
    ensures callable.Some? ==> url == callable.value(LOGIN_ROUTE)
  {
    match callable
    case None => LOGIN_REDIRECT
    case Some(f) => f(LOGIN_ROUTE)
  }

  /** What `upgrade($version, ...)` runs. */
  datatype UpgradeStep = Upgrade310_19012201 | NoUpgrade

  const UPGRADE_VERSION: string := "310.19012201"

  /** The number 310.19012201 that `UPGRADE_VERSION` stands for. */
  const UPGRADE_NUMBER: Decimal := Decimal(31019012201, 8)

  /**
   * `upgrade`: the `switch` compares loosely, so the 310.19012201 data migration runs for
   * that version string and for every plain decimal string with the same numeric value.
   */
  function Upgrade(version: string): (step: UpgradeStep)
    ensures step == Upgrade310_19012201 <==>
      version == UPGRADE_VERSION
      || (DecimalValue(version).Some? && SameNumber(DecimalValue(version).value, UPGRADE_NUMBER))
  {
    UpgradeVersionValue();
    if LooseEquals(version, UPGRADE_VERSION) then Upgrade310_19012201 else NoUpgrade
  }

  /** "310.19012201" is a plain decimal string for the number 310.19012201. */
  lemma UpgradeVersionValue()
    ensures DecimalValue(UPGRADE_VERSION) == Some(UPGRADE_NUMBER)
  {
    assert DotAt(UPGRADE_VERSION) == 3;
    assert Whole(UPGRADE_VERSION) == "310";
    assert Frac(UPGRADE_VERSION) == "19012201";
    assert "310" + "19012201" == "31019012201";
    VersionDigits();
  }

  /** The digits of the version, read as one number, digit by digit. */
  lemma VersionDigits()
    ensures DigitsValue("31019012201") == 31019012201
  {
    DigitsValueSnoc("", '3');
    assert "" + ['3'] == "3";
    DigitsValueSnoc("3", '1');
    assert "3" + ['1'] == "31";
    DigitsValueSnoc("31", '0');
    assert "31" + ['0'] == "310";
    DigitsValueSnoc("310", '1');
    assert "310" + ['1'] == "3101";
    DigitsValueSnoc("3101", '9');
    assert "3101" + ['9'] == "31019";
    DigitsValueSnoc("31019", '0');
    assert "31019" + ['0'] == "310190";
    DigitsValueSnoc("310190", '1');
    assert "310190" + ['1'] == "3101901";
    DigitsValueSnoc("3101901", '2');
    assert "3101901" + ['2'] == "31019012";
    DigitsValueSnoc("31019012", '2');
    assert "31019012" + ['2'] == "310190122";
    DigitsValueSnoc("310190122", '0');
    assert "310190122" + ['0'] == "3101901220";
    DigitsValueSnoc("3101901220", '1');
    assert "3101901220" + ['1'] == "31019012201";
  }

  /** The migration runs for the version itself. */
  lemma UpgradeRunsForItsVersion()
    ensures Upgrade(UPGRADE_VERSION) == Upgrade310_19012201
  {
  }

  /**
   * A version string other than "310.19012201" that still runs the migration: the trailing
   * zero leaves its number unchanged.
   */
  lemma UpgradeTrailingZero()
    ensures "310.190122010" != UPGRADE_VERSION
    ensures Upgrade("310.190122010") == Upgrade310_19012201
  {
    var v := "310.190122010";
    assert v[3] == '.';
    assert DotAt(v) == 3;
    assert Whole(v) == "310";
    assert Frac(v) == "190122010";
    assert "310" + "190122010" == "310190122010";
    TrailingZeroDigits();
    assert DecimalValue(v) == Some(Decimal(310190122010, 9));
    assert Pow10(9) == 10 * Pow10(8);
  }

  /** The digits of "310.190122010", read as one number. */
  lemma TrailingZeroDigits()
    ensures DigitsValue("310190122010") == 310190122010
  {
    DigitsValueSnoc("", '3');
    assert "" + ['3'] == "3";
    DigitsValueSnoc("3", '1');
    assert "3" + ['1'] == "31";
    DigitsValueSnoc("31", '0');
    assert "31" + ['0'] == "310";
    DigitsValueSnoc("310", '1');
    assert "310" + ['1'] == "3101";
    DigitsValueSnoc("3101", '9');
    assert "3101" + ['9'] == "31019";
    DigitsValueSnoc("31019", '0');
    assert "31019" + ['0'] == "310190";
    DigitsValueSnoc("310190", '1');
    assert "310190" + ['1'] == "3101901";
    DigitsValueSnoc("3101901", '2');
    assert "3101901" + ['2'] == "31019012";
    DigitsValueSnoc("31019012", '2');
    assert "31019012" + ['2'] == "310190122";
    DigitsValueSnoc("310190122", '0');
    assert "310190122" + ['0'] == "3101901220";
    DigitsValueSnoc("3101901220", '1');
    assert "3101901220" + ['1'] == "31019012201";
    DigitsValueSnoc("31019012201", '0');
    assert "31019012201" + ['0'] == "310190122010";
  }

  /** A version that is not a decimal string runs the migration only if it is the literal version. */
  lemma UpgradeNonNumeric(version: string)
    requires DecimalValue(version).None?
    ensures Upgrade(version) == Upgrade310_19012201 <==> version == UPGRADE_VERSION
  {
    UpgradeVersionValue();
  }

  class Plugin {
    /** `$this->data`: the signed-in user's record, or null. */
    var data: AuthenticatorData?
    /** The records `pluginOperation` keeps, by user id. */
    var store: map<int, Record>
    /** `$this->pluginOperation !== null`. */
    const hasOperation: bool
    /** `$this->session->isLoggedIn()`. */
    const loggedIn: bool
    /** `$this->session->getUserData()->getId()`. */
    const sessionUserId: int

    constructor (store: map<int, Record>, hasOperation: bool, loggedIn: bool, sessionUserId: int)
      ensures data == null && this.store == store
      ensures this.hasOperation == hasOperation && this.loggedIn == loggedIn
      ensures this.sessionUserId == sessionUserId
    {
      data := null;
      this.store := store;
      this.hasOperation := hasOperation;
      this.loggedIn := loggedIn;
      this.sessionUserId := sessionUserId;
    }

    /** The loaded record as a value. */
    function Loaded(): Option<Record>
      reads this, data
    {
      if data == null then None else Some(data.Snapshot())
    }

    /** What `getData()` hands out: the loaded record, or the store's when it would load. */
    function Pending(): Option<Record>
      reads this, data
    {
      if data == null && loggedIn && hasOperation then
        (if sessionUserId in store then Some(store[sessionUserId]) else None)
      else Loaded()
    }

    /** `setDataForId($id, $data)`: files the record under the id, replacing any other. */
    method SetDataForId(id: int, d: AuthenticatorData)
      modifies this`store
      ensures store == old(store)[id := d.Snapshot()]
    {
      store := store[id := d.Snapshot()];
    }

    /** `deleteDataForId($id)`: `pluginOperation->delete((int)$id)`. */
    method DeleteDataForId(id: int)
      modifies this`store
      ensures store == old(store) - {id}
    {
      store := store - {id};
    }

    /** `loadData()`: the signed-in user's record, or null when the store has none. */
    method LoadData()
      modifies this`data
      ensures data == null <==> sessionUserId !in store
      ensures data != null ==> fresh(data) && data.Snapshot() == store[sessionUserId]
    {
      if sessionUserId in store {
        data := new AuthenticatorData.FromRecord(store[sessionUserId]);
      } else {
        data := null;
      }
    }

    /**
     * `getData()`: loads the record first only when none is loaded, the session is signed
     * in and a store is attached; otherwise hands out what is loaded.
     */
    method GetData() returns (d: AuthenticatorData?)
      modifies this`data
      ensures d == data
      ensures d == null <==> old(Pending()).None?
      ensures d != null ==> d.Snapshot() == old(Pending()).value
      ensures old(data) == null && loggedIn && hasOperation ==>
        (d == null <==> sessionUserId !in store)
        && (d != null ==> fresh(d) && d.Snapshot() == store[sessionUserId])
      ensures !(old(data) == null && loggedIn && hasOperation) ==> data == old(data)
    {
      if data == null && loggedIn && hasOperation {
        LoadData();
      }
      d := data;
    }

    /**
     * `checkLogin` on `login.finish`: a loaded record with 2FA on clears both flags and
     * stores the redirect to the second-factor page; otherwise both flags are set.
     */
    method CheckLogin(session: Session, callable: Option<string -> string>)
      modifies session`twoFApass, session`authCompleted, session`redirect
      ensures RequiresSecondFactor(Loaded()) ==>
        !session.twoFApass && !session.authCompleted
        && session.redirect == Some(LoginRedirect(callable))
      ensures !RequiresSecondFactor(Loaded()) ==>
        session.twoFApass && session.authCompleted && session.redirect == old(session.redirect)
    {
      if data != null && data.IsTwofaEnabled() {
        session.SetFlags(false);
        session.SetRedirect(LoginRedirect(callable));
      } else {
        session.SetFlags(true);
      }
    }
  }
}
