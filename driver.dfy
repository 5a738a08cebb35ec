/** The browser session helpers of `scraper/driver.py`: a counted scroll,
    scrolling until a page predicate reports the end, and the `load`
    wrapper that replaces its browser after a fixed number of page loads. */
module Driver {
  import opened Wrappers

  /** What is sent to one browser, in order. */
  datatype Action = Open(url: string) | ScrollToBottom | PageDown | Quit

  /** The browser driven through Selenium (Firefox), kept abstract: the URL
      it was told to use and the log of actions it received. */
  class Browser {
    var baseUrl: string
    ghost var actions: seq<Action>

    /** `webdriver.Firefox()`: a fresh browser that has done nothing. */
    constructor ()
      ensures baseUrl == "" && actions == []
    {
      baseUrl := "";
      actions := [];
    }

    ghost predicate Quitted()
      reads this
    {
      Action.Quit in actions
    }

    /** `driver.get(url)`: navigate; a quit browser cannot navigate. */
    method Get(url: string)
      requires !Quitted()
      modifies this`actions
      ensures actions == old(actions) + [Open(url)]
    {
      actions := actions + [Open(url)];
    }

    /** `execute_script("window.scrollTo(0, document.body.scrollHeight)")`. */
    method ScrollDown()
      requires !Quitted()
      modifies this`actions
      ensures actions == old(actions) + [ScrollToBottom]
    {
      actions := actions + [ScrollToBottom];
    }

    /** `find_element_by_tag_name('body').send_keys(Keys.PAGE_DOWN)`. */
    method SendPageDown()
      requires !Quitted()
      modifies this`actions
      ensures actions == old(actions) + [PageDown]
    {
      actions := actions + [PageDown];
    }

    /** `driver.quit()`. */
    method Quit()
      modifies this`actions
      ensures actions == old(actions) + [Action.Quit]
      ensures Quitted()
    {
      actions := actions + [Action.Quit];
    }
  }

  /** `n` copies of the action `a`. */
  function Repeat(a: Action, n: nat): (r: seq<Action>)
    ensures |r| == n && forall i :: 0 <= i < n ==> r[i] == a
  {
    if n == 0 then [] else Repeat(a, n - 1) + [a]
  }

  /** `scroll(driver, times)`: scrolls to the bottom once per iteration of
      `range(0, times)` (none when `times` is not positive) and hands back
      the same browser. */
  method Scroll(driver: Browser, times: int) returns (d: Browser)
    requires !driver.Quitted()
    modifies driver`actions
    ensures d == driver
    ensures driver.actions == old(driver.actions) + Repeat(ScrollToBottom, if times > 0 then times else 0)
  {
    var i := 0;
    while i < times
      invariant 0 <= i <= (if times > 0 then times else 0)
      invariant driver.actions == old(driver.actions) + Repeat(ScrollToBottom, i)
    {
      driver.ScrollDown();
      i := i + 1;
    }
    d := driver;
  }

  /** `goto_end_page(driver, is_ended)`: presses PAGE_DOWN for as long as
      `is_ended()` answers false. `isEnded(k)` is the answer of the k-th
      poll: the page is external, so the answers are a parameter. The
      source loops without bound; here at most `fuel` keys are pressed. */
  method GotoEndPage(driver: Browser, isEnded: nat -> bool, fuel: nat) returns (d: Browser, presses: nat)
    requires !driver.Quitted()
    modifies driver`actions
    ensures d == driver
    ensures driver.actions == old(driver.actions) + Repeat(PageDown, presses)
    ensures presses <= fuel
    ensures forall k :: 0 <= k < presses ==> !isEnded(k)
    ensures presses < fuel ==> isEnded(presses)
  {
    presses := 0;
    while presses < fuel && !isEnded(presses)
      invariant presses <= fuel
      invariant driver.actions == old(driver.actions) + Repeat(PageDown, presses)
      invariant forall k :: 0 <= k < presses ==> !isEnded(k)
    {
      driver.SendPageDown();
      presses := presses + 1;
    }
    d := driver;
  }

  /** The value of `_count_opened_urls` after `k` calls of `get` on a
      `load` built with `reload_every = r`. */
  function Counter(r: int, k: nat): (c: int)
    ensures 0 <= c && (r >= 0 ==> c <= r)
  {
    if k == 0 then 0
    else
      var c := Counter(r, k - 1) + 1;
      if c > r then 0 else c
  }

  /** The `k`-th call of `get` (counting from 1) replaces the browser. */
  predicate Reloads(r: int, k: nat)
    requires k >= 1
  {
    Counter(r, k - 1) + 1 > r
  }

  /** With `r >= 0` the counter is the number of calls modulo `r + 1`. */
  lemma {:induction false} CounterIsModulo(r: int, k: nat)
    requires r >= 0
    ensures Counter(r, k) == k % (r + 1)
  {
    if k > 0 {
      CounterIsModulo(r, k - 1);
      ModuloStep(k - 1, r + 1);
    }
  }

  lemma ModuloStep(a: nat, m: nat)
    requires m > 0
    ensures (a + 1) % m == if a % m + 1 == m then 0 else a % m + 1
  {
    var q := a / m;
    if a % m + 1 == m {
      ModuloUnique(a + 1, m, q + 1, 0);
    } else {
      ModuloUnique(a + 1, m, q, a % m + 1);
    }
  }

  /** Euclidean division has one quotient and one remainder. */
  lemma ModuloUnique(x: int, m: int, q: int, rem: int)
    requires m > 0 && 0 <= rem < m && x == q * m + rem
    ensures x % m == rem
  {
    var q0 := x / m;
    var r0 := x % m;
    assert x == q0 * m + r0;
    assert (q0 - q) * m == rem - r0;
    if q0 > q {
      MultipleAtLeast(q0 - q, m);
    } else if q0 < q {
      MultipleAtLeast(q - q0, m);
    }
  }

  lemma MultipleAtLeast(d: int, m: int)
    requires d >= 1 && m > 0
    ensures d * m >= m
  {
  }

  /** The browser is replaced exactly on the calls whose number is a
      multiple of `reload_every + 1`. */
  lemma ReloadOnMultiples(r: int, k: nat)
    requires r >= 0 && k >= 1
    ensures Reloads(r, k) <==> k % (r + 1) == 0
  {
    CounterIsModulo(r, k - 1);
    ModuloStep(k - 1, r + 1);
  }

  /** With a negative `reload_every` every call replaces the browser. */
  lemma ReloadAlwaysWhenNegative(r: int, k: nat)
    requires r < 0 && k >= 1
    ensures Reloads(r, k)
  {
  }

  /** Lifecycle events of the browsers owned by one `load`, numbered by
      generation: the first browser is generation 0. */
  datatype Event = Launch(gen: nat) | Visit(gen: nat, url: string) | Shutdown(gen: nat)

  /** `class load`: owns one browser at a time and replaces it after
      `reload_every` page loads through `get`. */
  class Load {
    const reloadEvery: int
    var countOpenedUrls: int
    var driver: Browser
    ghost var gets: nat
    ghost var generation: nat
    ghost var events: seq<Event>

    ghost predicate Valid()
      reads this, driver
    {
      && countOpenedUrls == Counter(reloadEvery, gets)
      && 0 <= countOpenedUrls
      && (reloadEvery >= 0 ==> countOpenedUrls <= reloadEvery)
      && !driver.Quitted()
    }

    /** `load(url, reload_every)`: launches a browser and, when `url` is
        given (non-empty), opens it; that first page does not count. */
    constructor (url: string, reloadEvery: int)
      ensures Valid() && fresh(driver)
      ensures this.reloadEvery == reloadEvery && countOpenedUrls == 0
      ensures gets == 0 && generation == 0
      ensures url != "" ==> driver.baseUrl == url && driver.actions == [Open(url)]
      ensures url == "" ==> driver.actions == []
      ensures events == [Launch(0)] + (if url != "" then [Visit(0, url)] else [])
    {
      this.reloadEvery := reloadEvery;
      countOpenedUrls := 0;
      var b := new Browser();
      driver := b;
      gets := 0;
      generation := 0;
      events := [Launch(0)];
      if url != "" {
        b.baseUrl := url;
        b.Get(b.baseUrl);
        events := events + [Visit(0, url)];
      }
    }

    /** `_need_reload()`: counts one more page and answers whether the
        count went past `reload_every`, resetting it to 0 when it did. */
    method NeedReload() returns (need: bool)
      modifies this`countOpenedUrls
      ensures need <==> old(countOpenedUrls) + 1 > reloadEvery
      ensures countOpenedUrls == if need then 0 else old(countOpenedUrls) + 1
    {
      countOpenedUrls := countOpenedUrls + 1;
      need := countOpenedUrls > reloadEvery;
      if need {
        countOpenedUrls := 0;
      }
    }

    /** `get(url)`: opens `url`, first replacing the browser when this is
        the `(reload_every + 1)`-th call since the last replacement. The
        old browser is quit before the new one is launched, and the page
        is opened on whichever browser is current. */
    method Get(url: string) returns (ghost reloaded: bool)
      requires Valid()
      modifies this, driver
      ensures Valid()
      ensures gets == old(gets) + 1
      ensures reloaded == Reloads(reloadEvery, gets)
      ensures reloaded <==> old(countOpenedUrls) + 1 > reloadEvery
      ensures driver.baseUrl == url
      ensures reloaded ==> fresh(driver) && driver.actions == [Open(url)]
      ensures reloaded ==> old(driver).actions == old(driver.actions) + [Action.Quit]
      ensures reloaded ==> generation == old(generation) + 1
      ensures !reloaded ==> driver == old(driver) && driver.actions == old(driver.actions) + [Open(url)]
      ensures !reloaded ==> generation == old(generation)
      ensures events == old(events)
        + (if reloaded then [Shutdown(old(generation)), Launch(old(generation) + 1)] else [])
        + [Visit(generation, url)]
    {
      var need := NeedReload();
      reloaded := need;
      gets := gets + 1;
      assert countOpenedUrls == Counter(reloadEvery, gets);
      if need {
        driver.Quit();
        events := events + [Shutdown(generation)];
        driver := new Browser();
        generation := generation + 1;
        events := events + [Launch(generation)];
      }
      driver.baseUrl := url;
      driver.Get(driver.baseUrl);
      events := events + [Visit(generation, url)];
    }

    /** `__exit__`: quits the current browser, which may be a replacement
        of the one the constructor launched. */
    method Exit()
      requires Valid()
      modifies this`events, driver`actions
      ensures driver == old(driver)
      ensures driver.actions == old(driver.actions) + [Action.Quit] && driver.Quitted()
      ensures events == old(events) + [Shutdown(generation)]
    {
      driver.Quit();
      events := events + [Shutdown(generation)];
    }
  }

  // ----- what `with load(...) as driver:` binds -----

  /** The object a name refers to: a `load` object, or the Selenium
      browser held in its `driver` attribute. */
  datatype Handle = LoadObject | WebDriver

  /** `raise AttributeError(name)`: the object has no attribute `name`. */
  datatype PyError = AttributeError(name: string)

  /** `load.__enter__` returns `self`, so `with load(url) as driver:` binds
      the `load` object, not its browser. */
  const Entered: Handle := LoadObject

  /** The attributes of a `load` object that matter to the lookups modelled
      here: those its methods set and define. The dunder attributes every
      Python object inherits are not listed. */
  const LoadAttributes: set<string> :=
    {"_reload_every", "_count_opened_urls", "driver", "__init__", "__enter__", "__exit__", "get", "_need_reload"}

  /** The browser attributes the scraper uses, all of which Selenium's
      `WebDriver` has. */
  const WebDriverAttributes: set<string> :=
    {"base_url", "get", "implicitly_wait", "quit", "execute_script", "find_element_by_tag_name",
     "find_element_by_css_selector", "find_elements_by_css_selector", "page_source"}

  /** `getattr(h, name)` succeeds. */
  predicate HasAttribute(h: Handle, name: string) {
    name in (match h case LoadObject => LoadAttributes case WebDriver => WebDriverAttributes)
  }

  /** Looking up `name` on `h`: fine, or `AttributeError(name)`. */
  function Lookup(h: Handle, name: string): (r: Result<(), PyError>)
    ensures r.Ok? <==> HasAttribute(h, name)
    ensures r.Err? ==> r.error == AttributeError(name)
  {
    if HasAttribute(h, name) then Ok(()) else Err(AttributeError(name))
  }

  /** The attribute lookups `scroll(driver, times)` makes before it
      returns: `driver.execute_script` once per iteration, so none when
      `times` is not positive. */
  function ScrollLookups(h: Handle, times: int): (r: Result<(), PyError>)
    ensures r.Err? <==> times > 0 && h == LoadObject
    ensures r.Err? ==> r.error == AttributeError("execute_script")
  {
    if times > 0 then Lookup(h, "execute_script") else Ok(())
  }

  /** The first thing `goto_end_page(driver, is_ended)` does is
      `driver.find_element_by_tag_name('body')`, which only a browser can
      answer. */
  function GotoEndPageLookups(h: Handle): (r: Result<(), PyError>)
    ensures r.Err? <==> h == LoadObject
    ensures r.Err? ==> r.error == AttributeError("find_element_by_tag_name")
  {
    Lookup(h, "find_element_by_tag_name")
  }
}
