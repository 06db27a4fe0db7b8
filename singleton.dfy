/** The two lazy singletons: `SingleTon.getInstance`, which stores the
    instance on `this.instance` but returns a closure variable that is never
    assigned, and `ProxySingleTonCreateDiv`, which creates one `CreateDiv`
    on its first call and hands it out on every later call. */
module Singleton {

  // ---------------------------------------------------------------------
  // SingleTon.getInstance.

  /** `new SingleTon(name)`. */
  class SingleTon {
    const name: string

    constructor (name: string)
      ensures this.name == name
    {
      this.name := name;
    }
  }

  /** The `SingleTon` function object as `getInstance` sees it: its
      `instance` property (`this.instance`, unset at first) and the
      closure variable `instance`, initialised to `null` and never
      assigned. */
  class SingleTonFactory {
    var instance: SingleTon?
    const closureInstance: SingleTon?

    constructor ()
      ensures instance == null && closureInstance == null
    {
      instance := null;
      closureInstance := null;
    }

    /** `SingleTon.getInstance(name)` as written: the first call creates
        the instance with its name and stores it on the property; every
        call returns the closure variable, that is `null`. */
    method GetInstance(name: string) returns (r: SingleTon?)
      modifies this
      ensures r == closureInstance
      ensures old(instance) == null ==> instance != null && fresh(instance) && instance.name == name
      ensures old(instance) != null ==> instance == old(instance)
    {
      if instance == null {
        instance := new SingleTon(name);
      }
      return closureInstance;
    }

    /** `getInstance` returning the instance it stores, as evidently
        intended: the result is never `null`, the first call's name wins
        and later calls return the same object. */
    method GetInstanceCorrected(name: string) returns (r: SingleTon)
      modifies this
      ensures r == instance
      ensures old(instance) == null ==> fresh(r) && r.name == name
      ensures old(instance) != null ==> r == old(instance)
    {
      if instance == null {
        instance := new SingleTon(name);
      }
      return instance;
    }
  }

  /** The demo as written: `a === b` holds only because both calls return
      `null`, although the first call did create a 'seven1' instance. */
  method StandardDemo() returns (a: SingleTon?, b: SingleTon?, stored: string)
    ensures a == null && b == null
    ensures stored == "seven1"
  {
    var factory := new SingleTonFactory();
    a := factory.GetInstance("seven1");
    b := factory.GetInstance("seven2");
    stored := factory.instance.name;
  }

  /** The demo with the corrected `getInstance`: both calls return the one
      instance, named after the first call's argument. */
  method StandardDemoCorrected() returns (same: bool, name: string)
    ensures same && name == "seven1"
  {
    var factory := new SingleTonFactory();
    var a := factory.GetInstanceCorrected("seven1");
    var b := factory.GetInstanceCorrected("seven2");
    same := a == b;
    name := a.name;
  }

  // ---------------------------------------------------------------------
  // ProxySingleTonCreateDiv.

  /** `new CreateDiv(html)`: keeps `html`; its `init` logs it. */
  class CreateDiv {
    const html: string

    constructor (html: string)
      ensures this.html == html
    {
      this.html := html;
    }
  }

  /** `ProxySingleTonCreateDiv` with the closure variable `instance` it
      keeps; `initLog` lists what `CreateDiv`'s `init` has logged. */
  class DivProxy {
    var instance: CreateDiv?
    var initLog: seq<string>

    /** `init` has run exactly once, for the stored instance, once there
        is one, and not at all before. */
    ghost predicate Valid()
      reads this, instance
    {
      if instance == null then initLog == [] else initLog == [instance.html]
    }

    constructor ()
      ensures Valid() && instance == null
    {
      instance := null;
      initLog := [];
    }

    /** `ProxySingleTonCreateDiv(html)`: the first call creates the
        instance from its `html` (running `init`), later calls return that
        instance and ignore their argument. */
    method Call(html: string) returns (r: CreateDiv)
      requires Valid()
      modifies this
      ensures Valid()
      ensures r == instance
      ensures old(instance) == null ==> fresh(r) && r.html == html && initLog == [html]
      ensures old(instance) != null ==> r == old(instance) && initLog == old(initLog)
    {
      if instance == null {
        instance := new CreateDiv(html);
        initLog := initLog + [instance.html];
      }
      return instance;
    }
  }

  /** The demo: `a === b`, the shared instance keeps 'seven1' and `init`
      logged once. */
  method ProxyDemo() returns (same: bool, html: string, log: seq<string>)
    ensures same && html == "seven1" && log == ["seven1"]
  {
    var proxy := new DivProxy();
    var a := proxy.Call("seven1");
    var b := proxy.Call("seven2");
    same := a == b;
    html := a.html;
    log := proxy.initLog;
  }
}
