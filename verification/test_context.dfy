/** TestContext: the per-scenario store shared between step definitions, and its thread slot. */
module Context {
  import opened Wrappers
  import opened Browser
  import DriverFactory
  import Home

  /** A stored test-data value, seen through its toString rendering. */
  datatype Obj = Obj(repr: string)

  /**
   * One scenario's context: the test-data map (a stored Java null is None), the cached driver and
   * the lazily built home page.
   */
  class TestContext {
    var testData: map<string, Option<Obj>>
    var driver: Driver?
    var homePage: Home.HomePage?

    constructor ()
      ensures testData == map[] && driver == null && homePage == null
    {
      testData := map[];
      driver := null;
      homePage := null;
    }

    /** getDriver: the cached driver; when none is cached, the factory's current one is cached and returned. */
    method GetDriver(factory: DriverFactory.Registry) returns (d: Driver?)
      modifies this
      ensures old(driver) != null ==> d == old(driver)
      ensures old(driver) == null ==> d == factory.current
      ensures driver == d && testData == old(testData) && homePage == old(homePage)
    {
      if driver == null {
        driver := factory.GetCurrentDriver();
      }
      d := driver;
    }

    /** setDriver. */
    method SetDriver(d: Driver?)
      modifies this
      ensures driver == d && testData == old(testData) && homePage == old(homePage)
    {
      driver := d;
    }

    /**
     * getECommerceHomePage: the cached page object; otherwise one built on getDriver's answer and
     * cached. Building on a null driver raises (the page's wait refuses a null driver) and caches nothing.
     */
    method GetECommerceHomePage(factory: DriverFactory.Registry) returns (r: Result<Home.HomePage, Failure>)
      modifies this
      ensures old(homePage) != null ==> r == Success(old(homePage)) && unchanged(this)
      ensures old(homePage) == null ==>
        var d := if old(driver) != null then old(driver) else factory.current;
        && driver == d && testData == old(testData)
        && (d == null ==> r == Failure(NullDriver) && homePage == null)
        && (d != null ==> r.Success? && fresh(r.value) && r.value.driver == d && homePage == r.value)
    {
      if homePage != null {
        return Success(homePage);
      }
      var d := GetDriver(factory);
      if d == null {
        return Failure(NullDriver);
      }
      var page := new Home.HomePage(d);
      homePage := page;
      r := Success(page);
    }

    /** getTestData: the stored value; a missing key and a stored null both read as None. */
    function GetTestData(key: string): (v: Option<Obj>)
      reads this
      ensures key in testData ==> v == testData[key]
      ensures key !in testData ==> v == None
    {
      if key in testData then testData[key] else None
    }

    /** setTestData: afterwards the key reads back the value stored; every other key reads as before. */
    method SetTestData(key: string, value: Option<Obj>)
      modifies this
      ensures GetTestData(key) == value
      ensures forall k :: k != key ==> GetTestData(k) == old(GetTestData(k))
      ensures testData == old(testData)[key := value]
      ensures driver == old(driver) && homePage == old(homePage)
    {
      testData := testData[key := value];
    }

    /** getTestDataAsString: the stored value's rendering, or None when the key reads as None. */
    function GetTestDataAsString(key: string): (s: Option<string>)
      reads this
      ensures s.Some? <==> GetTestData(key).Some?
      ensures s.Some? ==> s.value == GetTestData(key).value.repr
    {
      match GetTestData(key)
      case Some(o) => Some(o.repr)
      case None => None
    }

    /** clearTestData: every key reads as None afterwards; the driver and page cache are untouched. */
    method ClearTestData()
      modifies this
      ensures forall k :: GetTestData(k) == None
      ensures testData == map[] && driver == old(driver) && homePage == old(homePage)
    {
      testData := map[];
    }

    /**
     * cleanup: when a driver is cached, the factory's current driver is quit and the cache dropped;
     * with none cached the factory is left alone. Either way the data and the page cache are cleared.
     */
    method Cleanup(factory: DriverFactory.Registry)
      modifies this, factory, factory.current
      ensures driver == null && testData == map[] && homePage == null
      ensures old(driver) == null ==>
        factory.current == old(factory.current) && factory.requests == old(factory.requests)
        && (old(factory.current) != null ==> unchanged(old(factory.current)))
      ensures old(driver) != null ==>
        && factory.current == null && factory.requests == old(factory.requests)
        && (old(factory.current) != null ==>
              old(factory.current).Advanced(old(factory.current.log), old(factory.current.page), [Quit]))
    {
      if driver != null {
        factory.QuitDriver();
        driver := null;
      }
      ClearTestData();
      homePage := null;   // clearPageObjects
    }
  }

  /** The calling thread's slot of the context ThreadLocal. */
  class ContextSlot {
    var instance: TestContext?

    constructor ()
      ensures instance == null
    {
      instance := null;
    }

    /** getInstance: the slot's context, created empty the first time and the same object ever after. */
    method GetInstance() returns (c: TestContext)
      modifies this
      ensures old(instance) != null ==> c == old(instance)
      ensures old(instance) == null ==> fresh(c) && c.testData == map[] && c.driver == null && c.homePage == null
      ensures instance == c
    {
      if instance == null {
        instance := new TestContext();
      }
      c := instance;
    }

    /** reset: cleans up the slot's context, if any, then empties the slot. */
    method Reset(factory: DriverFactory.Registry)
      modifies this, instance, factory, factory.current
      ensures instance == null
      ensures old(instance) != null ==>
        && old(instance).driver == null && old(instance).testData == map[] && old(instance).homePage == null
        && (old(instance.driver) != null ==> factory.current == null)
        && (old(instance.driver) != null && old(factory.current) != null ==>
              old(factory.current).Advanced(old(factory.current.log), old(factory.current.page), [Quit]))
        && (old(instance.driver) == null ==> factory.current == old(factory.current))
      ensures old(instance) == null ==> unchanged(factory)
      ensures (old(instance) == null || old(instance.driver) == null) && old(factory.current) != null ==>
        unchanged(old(factory.current))
      ensures factory.requests == old(factory.requests)
    {
      var context := instance;
      if context != null {
        context.Cleanup(factory);
      }
      instance := null;
    }
  }
}
