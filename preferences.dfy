/**
 * The UI manager's small persistent state: the theme, the unit system and
 * the search history. The history field is the list kept in local storage
 * under the search-history key; reading and writing that storage, and the
 * DOM updates that follow each change, are not part of this model.
 */
module Preferences {
  import opened Text

  const Light: string := "light"
  const Dark: string := "dark"

  /** The most entries the search history keeps. */
  const HistoryLimit: nat := 5

  /** `currentTheme === 'light' ? 'dark' : 'light'`: any theme other than light gives light. */
  function ToggledTheme(theme: string): (r: string)
    ensures r == Light || r == Dark
    ensures r == Dark <==> theme == Light
  {
    if theme == Light then Dark else Light
  }

  /** Toggling the theme twice restores a light or dark theme. */
  lemma ToggleThemeTwice(theme: string)
    requires theme == Light || theme == Dark
    ensures ToggledTheme(ToggledTheme(theme)) == theme
  {
  }

  /** `history.filter(item => item.toLowerCase() !== city.toLowerCase())` */
  function WithoutCity(history: seq<string>, city: string): (r: seq<string>)
    ensures |r| <= |history|
    ensures forall x :: x in r ==> x in history && !SameIgnoringCase(x, city)
  {
    if history == [] then []
    else if SameIgnoringCase(history[0], city) then WithoutCity(history[1..], city)
    else [history[0]] + WithoutCity(history[1..], city)
  }

  /** `a` is `b` with some entries left out, the rest in their order. */
  ghost predicate SubsequenceOf(a: seq<string>, b: seq<string>)
    decreases |b|
  {
    if a == [] then true
    else if b == [] then false
    else if a[0] == b[0] then SubsequenceOf(a[1..], b[1..])
    else SubsequenceOf(a, b[1..])
  }

  /** The filter keeps the surviving entries in their original relative order. */
  lemma {:induction false} WithoutCityKeepsOrder(history: seq<string>, city: string)
    ensures SubsequenceOf(WithoutCity(history, city), history)
  {
    if history != [] {
      WithoutCityKeepsOrder(history[1..], city);
    }
  }

  /** The filter drops only entries that match the city ignoring case. */
  lemma {:induction false} WithoutCityKeepsOthers(history: seq<string>, city: string, x: string)
    requires x in history && !SameIgnoringCase(x, city)
    ensures x in WithoutCity(history, city)
  {
    if history[0] != x {
      WithoutCityKeepsOthers(history[1..], city, x);
    }
  }

  /** Every copy of a non-matching entry survives the filter, so duplicates are kept too. */
  lemma {:induction false} WithoutCityKeepsCounts(history: seq<string>, city: string)
    ensures forall x :: !SameIgnoringCase(x, city) ==> multiset(WithoutCity(history, city))[x] == multiset(history)[x]
  {
    if history != [] {
      WithoutCityKeepsCounts(history[1..], city);
      assert history == [history[0]] + history[1..];
    }
  }

  /** The filter works entry by entry: filtering a concatenation concatenates the filtered parts. */
  lemma {:induction false} WithoutCityConcat(a: seq<string>, b: seq<string>, city: string)
    ensures WithoutCity(a + b, city) == WithoutCity(a, city) + WithoutCity(b, city)
  {
    if a != [] {
      WithoutCityConcat(a[1..], b, city);
      assert (a + b)[1..] == a[1..] + b;
    } else {
      assert a + b == b;
    }
  }

  /** A history with no entry matching the city is left as it is. */
  lemma {:induction false} WithoutCityNoMatch(history: seq<string>, city: string)
    requires forall i :: 0 <= i < |history| ==> !SameIgnoringCase(history[i], city)
    ensures WithoutCity(history, city) == history
  {
    if history != [] {
      WithoutCityNoMatch(history[1..], city);
    }
  }

  /**
   * The history after a search for `city`: earlier matches removed, the
   * city put in front, the list cut to five entries.
   */
  function AddedToHistory(history: seq<string>, city: string): (r: seq<string>)
    ensures 0 < |r| <= HistoryLimit
    ensures r[0] == city
    ensures forall i :: 1 <= i < |r| ==> !SameIgnoringCase(r[i], city)
    ensures |r| == if 1 + |WithoutCity(history, city)| < HistoryLimit then 1 + |WithoutCity(history, city)| else HistoryLimit
    ensures r[1..] == WithoutCity(history, city)[..|r| - 1]
  {
    var front := [city] + WithoutCity(history, city);
    assert forall i :: 1 <= i < |front| ==> front[i] in WithoutCity(history, city);
    front[..if |front| < HistoryLimit then |front| else HistoryLimit]
  }

  /** Every entry behind the new first one comes from the old history in its old order. */
  lemma AddedToHistoryKeepsOrder(history: seq<string>, city: string)
    ensures SubsequenceOf(AddedToHistory(history, city)[1..], history)
  {
    var r := AddedToHistory(history, city);
    var f := WithoutCity(history, city);
    WithoutCityKeepsOrder(history, city);
    PrefixSubsequence(f, |r| - 1, history);
  }

  lemma {:induction false} PrefixSubsequence(a: seq<string>, k: nat, b: seq<string>)
    requires k <= |a| && SubsequenceOf(a, b)
    ensures SubsequenceOf(a[..k], b)
    decreases |b|
  {
    if k > 0 && b != [] {
      if a[0] == b[0] {
        assert a[..k][1..] == a[1..][..k - 1];
        PrefixSubsequence(a[1..], k - 1, b[1..]);
      } else {
        PrefixSubsequence(a, k, b[1..]);
      }
    }
  }

  /** Searching for the same city twice in a row leaves the history as after the first. */
  lemma AddedToHistoryTwice(history: seq<string>, city: string)
    ensures AddedToHistory(AddedToHistory(history, city), city) == AddedToHistory(history, city)
  {
    var r := AddedToHistory(history, city);
    assert SameIgnoringCase(r[0], city);
    assert WithoutCity(r, city) == WithoutCity(r[1..], city);
    WithoutCityNoMatch(r[1..], city);
  }

  class Preferences {
    var isMetric: bool
    var currentTheme: string
    var history: seq<string>

    /** Metric units, the light theme and an empty history. */
    constructor ()
      ensures isMetric && currentTheme == Light && history == []
    {
      isMetric := true;
      currentTheme := Light;
      history := [];
    }

    method SetTheme(theme: string)
      modifies this`currentTheme
      ensures currentTheme == theme
    {
      currentTheme := theme;
    }

    method ToggleTheme()
      modifies this`currentTheme
      ensures currentTheme == ToggledTheme(old(currentTheme))
    {
      SetTheme(if currentTheme == Light then Dark else Light);
    }

    method ToggleUnits()
      modifies this`isMetric
      ensures isMetric == !old(isMetric)
    {
      isMetric := !isMetric;
    }

    /** Record a search: filter out the city, put it in front, keep five. */
    method AddToHistory(city: string)
      modifies this`history
      ensures history == AddedToHistory(old(history), city)
    {
      history := WithoutCity(history, city);
      history := [city] + history;
      history := history[..if |history| < HistoryLimit then |history| else HistoryLimit];
    }
  }
}
