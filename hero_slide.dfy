/** The home page's hero slide background (`SlideBg`): the list of image
    addresses it tries in turn (the slide's own URL, the same image through
    an image proxy, and a fixed fallback picture) and the index of the one
    shown, which moves on each time an image fails to load. */
module HeroSlide {
  import opened Text
  import opened Ui

  const Fallback := "https://cdn.pixabay.com/photo/2014/04/03/11/07/teddy-bear-311519_1280.png"
  const ProxyPrefix := "https://images.weserv.nl/?url="
  const ProxySuffix := "&w=1600&h=900&fit=cover&output=jpg"

  /** `s.replace(/^https?:\/\//, "")`: one leading "https://" or "http://"
      is removed; anything else is left alone. */
  function StripScheme(s: string): (r: string)
    ensures StartsWith(s, "https://") ==> r == s[8..]
    ensures StartsWith(s, "http://") ==> r == s[7..]
    ensures !StartsWith(s, "https://") && !StartsWith(s, "http://") ==> r == s
  {
    if StartsWith(s, "https://") then
      assert !StartsWith(s, "http://") by {
        assert s[4] == s[..8][4] == 's';
        assert |s| >= 7 ==> s[..7][4] == s[4];
      }
      s[8..]
    else if StartsWith(s, "http://") then s[7..]
    else s
  }

  /** Whatever follows the scheme survives stripping intact, even when it
      itself starts with a scheme: only one is removed. */
  lemma StripSchemeRemovesOneScheme(h: string)
    ensures StripScheme("https://" + h) == h
    ensures StripScheme("http://" + h) == h
  {
    assert ("https://" + h)[..8] == "https://";
    assert ("https://" + h)[8..] == h;
    assert ("http://" + h)[..7] == "http://";
    assert ("http://" + h)[7..] == h;
  }

  /** `url?.replace(...)`, where an absent URL stays absent. */
  function HostPath(url: Option<string>): (r: Option<string>)
    ensures r.Some? <==> url.Some?
    ensures url.Some? ==> r.value == StripScheme(url.value)
  {
    if url.Some? then Some(StripScheme(url.value)) else None
  }

  /** The proxy address; an absent host path is spelled "undefined" by the
      template string. */
  function Proxy(url: Option<string>): string {
    var hp := HostPath(url);
    ProxyPrefix + (if hp.Some? then hp.value else "undefined") + ProxySuffix
  }

  /** The proxy address is the fixed prefix, the URL without its scheme, and
      the fixed size and format suffix. */
  lemma ProxyShape(url: Option<string>)
    ensures var p := Proxy(url);
      && StartsWith(p, ProxyPrefix)
      && |p| >= |ProxyPrefix| + |ProxySuffix|
      && p[|p| - |ProxySuffix|..] == ProxySuffix
      && p[|ProxyPrefix|..|p| - |ProxySuffix|]
         == (if url.Some? then StripScheme(url.value) else "undefined")
  {
    var mid := if url.Some? then StripScheme(url.value) else "undefined";
    var p := Proxy(url);
    assert p == ProxyPrefix + mid + ProxySuffix;
    assert p[..|ProxyPrefix|] == ProxyPrefix;
    assert p[|p| - |ProxySuffix|..] == ProxySuffix;
    assert p[|ProxyPrefix|..|p| - |ProxySuffix|] == mid;
  }

  /** `.filter(Boolean)` over values that are strings or absent: the
      absent ones and the empty strings are dropped, the rest kept in
      order. */
  function KeepTruthy(xs: seq<Option<string>>): (r: seq<string>)
    ensures |r| <= |xs|
    ensures forall k :: 0 <= k < |r| ==> r[k] != ""
    ensures forall k :: 0 <= k < |r| ==> Some(r[k]) in xs
    ensures forall k :: 0 <= k < |xs| && xs[k].Some? && xs[k].value != "" ==> xs[k].value in r
  {
    if xs == [] then []
    else
      var rest := KeepTruthy(xs[1..]);
      assert forall x :: x in xs[1..] ==> x in xs;
      assert forall k :: 1 <= k < |xs| ==> xs[k] == xs[1..][k - 1];
      if xs[0].Some? && xs[0].value != "" then [xs[0].value] + rest else rest
  }

  /** Filtering distributes over concatenation, so order is kept. */
  lemma {:induction false} KeepTruthyAppend(xs: seq<Option<string>>, ys: seq<Option<string>>)
    ensures KeepTruthy(xs + ys) == KeepTruthy(xs) + KeepTruthy(ys)
    decreases |xs|
  {
    if xs == [] {
      assert xs + ys == ys;
    } else {
      assert (xs + ys)[1..] == xs[1..] + ys;
      KeepTruthyAppend(xs[1..], ys);
    }
  }

  /** A single value is kept exactly when it is a non-empty string. */
  lemma KeepTruthyOfOne(x: Option<string>)
    ensures KeepTruthy([x]) == if x.Some? && x.value != "" then [x.value] else []
  {
    assert [x][1..] == [];
  }

  /** `[url, proxy, FALLBACK].filter(Boolean)`. */
  function TryOrder(url: Option<string>): seq<string> {
    KeepTruthy([url, Some(Proxy(url)), Some(Fallback)])
  }

  /** Filtering three values of which the last two are non-empty strings
      keeps those two, preceded by the first when it is a non-empty string. */
  lemma KeepTruthyOfThree(a: Option<string>, b: string, c: string)
    requires b != "" && c != ""
    ensures KeepTruthy([a, Some(b), Some(c)])
         == if a.Some? && a.value != "" then [a.value, b, c] else [b, c]
  {
    assert [a, Some(b), Some(c)] == [a] + ([Some(b)] + [Some(c)]);
    KeepTruthyAppend([a], [Some(b)] + [Some(c)]);
    KeepTruthyAppend([Some(b)], [Some(c)]);
    KeepTruthyOfOne(a);
    KeepTruthyOfOne(Some(b));
    KeepTruthyOfOne(Some(c));
  }

  /** The candidates are the slide's URL when it is a non-empty string, then
      the proxy address, then the fallback: two or three of them, the last
      always the fallback, none empty. */
  lemma TryOrderShape(url: Option<string>)
    ensures var t := TryOrder(url);
      && (url.Some? && url.value != "" ==> t == [url.value, Proxy(url), Fallback])
      && (url.None? || url.value == "" ==> t == [Proxy(url), Fallback])
      && 2 <= |t| <= 3 && t[|t| - 1] == Fallback
      && forall k :: 0 <= k < |t| ==> t[k] != ""
  {
    ProxyShape(url);
    assert |Fallback| > 0;
    KeepTruthyOfThree(url, Proxy(url), Fallback);
  }

  /** The index after a load error: one further along, unless the last
      candidate is already shown. */
  function NextIndex(idx: nat, count: nat): (next: nat) {
    if idx + 1 < count then idx + 1 else idx
  }

  /** From any candidate index, an error either advances by exactly one or,
      at the last candidate, stays; the index never leaves the list. */
  lemma NextIndexInRange(idx: nat, count: nat)
    requires idx < count
    ensures NextIndex(idx, count) < count
    ensures idx < count - 1 ==> NextIndex(idx, count) == idx + 1
    ensures idx == count - 1 ==> NextIndex(idx, count) == idx
  {
  }

  /** After n errors the index is n, capped at the last candidate. */
  function IndexAfter(errors: nat, count: nat): (idx: nat)
    requires count > 0
  {
    if errors == 0 then 0 else NextIndex(IndexAfter(errors - 1, count), count)
  }

  lemma {:induction false} IndexAfterIsCapped(errors: nat, count: nat)
    requires count > 0
    ensures IndexAfter(errors, count) == if errors < count then errors else count - 1
  {
    if errors > 0 {
      IndexAfterIsCapped(errors - 1, count);
    }
  }

  class SlideBg {
    /** The slide's `url` prop. */
    const url: Option<string>
    /** `tryOrder`. */
    const candidates: seq<string>
    /** The React state `idx`. */
    var idx: nat

    ghost predicate Valid()
      reads this
    {
      candidates == TryOrder(url) && idx < |candidates|
    }

    /** The first render shows the first candidate. */
    constructor (url: Option<string>)
      ensures this.url == url && candidates == TryOrder(url)
      ensures idx == 0 && Valid()
    {
      this.url := url;
      candidates := TryOrder(url);
      idx := 0;
      new;
      TryOrderShape(url);
    }

    /** `current`: the candidate being shown. */
    function Current(): (c: string)
      reads this
      requires Valid()
      ensures c != "" && c in candidates
    {
      TryOrderShape(url);
      candidates[idx]
    }

    /** `img.onerror`: move to the next candidate if there is one. */
    method OnError()
      requires Valid()
      modifies this`idx
      ensures Valid()
      ensures idx == NextIndex(old(idx), |candidates|)
    {
      if idx < |candidates| - 1 {
        idx := idx + 1;
      }
    }
  }

  /** A slide whose own image and proxied copy both fail ends on the
      fallback picture, and a further error keeps it there. */
  method BothFailShowsFallback(url: string) returns (shown: seq<string>)
    requires url != ""
    ensures shown == [url, Proxy(Some(url)), Fallback, Fallback]
  {
    var slide := new SlideBg(Some(url));
    TryOrderShape(Some(url));
    var own := slide.Current();
    assert own == url;
    slide.OnError();
    var proxied := slide.Current();
    assert proxied == Proxy(Some(url));
    slide.OnError();
    var fallback := slide.Current();
    assert fallback == Fallback;
    slide.OnError();
    var still := slide.Current();
    assert still == Fallback;
    shown := [own, proxied, fallback, still];
  }
}
