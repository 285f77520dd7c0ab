/**
 * The address bar's MDN suggestion feature: the preferences that switch it
 * on, the keyword-indexed suggestion map it rebuilds on each remote-settings
 * sync and answers queries from, the result it builds for a suggestion, and
 * the result-menu commands it offers and handles.
 *
 * The preference store (`UrlbarPrefs`) and the blocked-suggestion set
 * (`QuickSuggest.blockedSuggestions`) are host services; here they are fields
 * of the feature object, like the private suggestion map.
 */
module UrlbarMdnSuggestions {
  import opened Wrappers

  // ---------------------------------------------------------------------------
  // Preferences and the enable gate
  // ---------------------------------------------------------------------------

  const FeatureGatePref: string := "mdn.featureGate"
  const SuggestMdnPref: string := "suggest.mdn"
  const NonsponsoredPref: string := "suggest.quicksuggest.nonsponsored"

  /** `enablingPreferences`: the preferences whose change makes the host re-evaluate the gate. */
  const EnablingPreferences: seq<string> := [FeatureGatePref, SuggestMdnPref, NonsponsoredPref]

  /** A boolean preference as the feature reads it; an unset preference reads as false. */
  function PrefValue(prefs: map<string, bool>, name: string): bool {
    name in prefs && prefs[name]
  }

  /** `shouldEnable` over a preference store. */
  function ShouldEnableWith(prefs: map<string, bool>): (on: bool)
    // the gate is the conjunction of exactly the enabling preferences
    ensures on <==> forall name :: name in EnablingPreferences ==> PrefValue(prefs, name)
  {
    PrefValue(prefs, FeatureGatePref) && PrefValue(prefs, SuggestMdnPref) && PrefValue(prefs, NonsponsoredPref)
  }

  /** The gate depends on no preference beyond the three enabling ones. */
  lemma ShouldEnableReadsOnlyEnablingPreferences(prefs1: map<string, bool>, prefs2: map<string, bool>)
    requires forall name :: name in EnablingPreferences ==> PrefValue(prefs1, name) == PrefValue(prefs2, name)
    ensures ShouldEnableWith(prefs1) == ShouldEnableWith(prefs2)
  {
    assert EnablingPreferences[0] == FeatureGatePref;
    assert EnablingPreferences[1] == SuggestMdnPref;
    assert EnablingPreferences[2] == NonsponsoredPref;
  }

  /** Turning `suggest.mdn` off closes the gate, whatever the other preferences say. */
  lemma SuggestMdnOffDisables(prefs: map<string, bool>)
    ensures !ShouldEnableWith(prefs[SuggestMdnPref := false])
  {
    assert !PrefValue(prefs[SuggestMdnPref := false], SuggestMdnPref);
  }

  // ---------------------------------------------------------------------------
  // The suggestion map
  // ---------------------------------------------------------------------------

  /** One suggestion of a remote-settings attachment, with the fields the feature uses. */
  datatype Suggestion = Suggestion(url: string, title: string, description: string, keywords: seq<string>)

  /** An attachment, already downloaded and decoded into its suggestions. */
  datatype Record = Record(results: seq<Suggestion>)

  /** What a `SuggestionsMap` answers: the suggestions `get` returns for each key it knows. */
  type SuggestionsMap = map<string, seq<Suggestion>>

  /** The suggestions `get` returns for `key`, none when the key is absent. */
  function Lookup(m: SuggestionsMap, key: string): seq<Suggestion> {
    if key in m then m[key] else []
  }

  /**
   * `suggestionsMap.add(results, { mapKeyword })` with its options bound: the
   * map after a batch of results has been added. Its code is not part of this
   * model, so the sync takes it as a parameter.
   */
  type AddFunction = (SuggestionsMap, seq<Suggestion>) -> SuggestionsMap

  /**
   * The map a sync of `records` builds: a new, empty `SuggestionsMap` to which
   * the results of each record are added in record order.
   */
  function SyncedMap(records: seq<Record>, add: AddFunction): SuggestionsMap {
    if records == [] then map[]
    else add(SyncedMap(records[..|records| - 1], add), records[|records| - 1].results)
  }

  // ---------------------------------------------------------------------------
  // An assumed behaviour of `SuggestionsMap.add`
  //
  // The lemmas from here to `QueryAfterSync` hold for the `add` below, not for
  // every `add`: each result is stored once under each distinct key that the
  // `mapKeyword` option expands its keywords to, after what the key held.
  // ---------------------------------------------------------------------------

  /** The map keys of a suggestion: each of its keywords expanded by the `mapKeyword` option. */
  function MapKeys(s: Suggestion, mapKeyword: string -> seq<string>): seq<string> {
    KeysOf(s.keywords, mapKeyword)
  }

  function KeysOf(keywords: seq<string>, mapKeyword: string -> seq<string>): seq<string> {
    if keywords == [] then [] else mapKeyword(keywords[0]) + KeysOf(keywords[1..], mapKeyword)
  }

  /** Stores `s` once more under every distinct key of `keys`. */
  function AddUnderKeys(m: SuggestionsMap, s: Suggestion, keys: seq<string>): SuggestionsMap
    decreases |keys|
  {
    if keys == [] then m
    else if keys[0] in keys[1..] then AddUnderKeys(m, s, keys[1..])
    else AddUnderKeys(m[keys[0] := Lookup(m, keys[0]) + [s]], s, keys[1..])
  }

  /** The assumed `add`: stores each of `results`, in order, under each of its distinct map keys. */
  function Add(m: SuggestionsMap, results: seq<Suggestion>, mapKeyword: string -> seq<string>): SuggestionsMap
    decreases |results|
  {
    if results == [] then m
    else Add(AddUnderKeys(m, results[0], MapKeys(results[0], mapKeyword)), results[1..], mapKeyword)
  }

  /** The assumed `add` with the `mapKeyword` option bound. */
  function AssumedAdd(mapKeyword: string -> seq<string>): AddFunction {
    (m: SuggestionsMap, results: seq<Suggestion>) => Add(m, results, mapKeyword)
  }

  /**
   * Reference definition of what a map built from `results` holds under
   * `key`: the results, in order, that have `key` among their map keys.
   */
  function Matches(results: seq<Suggestion>, mapKeyword: string -> seq<string>, key: string): seq<Suggestion> {
    if results == [] then []
    else
      (if key in MapKeys(results[0], mapKeyword) then [results[0]] else [])
      + Matches(results[1..], mapKeyword, key)
  }

  /** The matches are a selection of the results: exactly those having `key` among their map keys. */
  lemma {:induction false} MatchesSelects(results: seq<Suggestion>, mapKeyword: string -> seq<string>, key: string)
    ensures |Matches(results, mapKeyword, key)| <= |results|
    ensures forall s :: s in Matches(results, mapKeyword, key) <==> s in results && key in MapKeys(s, mapKeyword)
  {
    if results != [] {
      MatchesSelects(results[1..], mapKeyword, key);
      assert forall s :: s in results <==> s == results[0] || s in results[1..];
    }
  }

  lemma {:induction false} AddUnderKeysLookup(m: SuggestionsMap, s: Suggestion, keys: seq<string>, key: string)
    ensures Lookup(AddUnderKeys(m, s, keys), key) == Lookup(m, key) + (if key in keys then [s] else [])
    ensures key in AddUnderKeys(m, s, keys) <==> key in m || key in keys
    decreases |keys|
  {
    if keys != [] {
      assert key in keys <==> key == keys[0] || key in keys[1..];
      if keys[0] in keys[1..] {
        AddUnderKeysLookup(m, s, keys[1..], key);
      } else {
        var m' := m[keys[0] := Lookup(m, keys[0]) + [s]];
        AddUnderKeysLookup(m', s, keys[1..], key);
        if keys[0] == key {
          assert Lookup(m', key) == Lookup(m, key) + [s];
        }
      }
    }
  }

  /** What `Add` leaves under a key: the old suggestions followed by the new matches. */
  lemma {:induction false} AddLookup(m: SuggestionsMap, results: seq<Suggestion>, mapKeyword: string -> seq<string>, key: string)
    ensures Lookup(Add(m, results, mapKeyword), key) == Lookup(m, key) + Matches(results, mapKeyword, key)
    decreases |results|
  {
    if results != [] {
      var keys := MapKeys(results[0], mapKeyword);
      var m' := AddUnderKeys(m, results[0], keys);
      var head := if key in keys then [results[0]] else [];
      var tail := Matches(results[1..], mapKeyword, key);
      calc {
        Lookup(Add(m, results, mapKeyword), key);
        Lookup(Add(m', results[1..], mapKeyword), key);
        { AddLookup(m', results[1..], mapKeyword, key); }
        Lookup(m', key) + tail;
        { AddUnderKeysLookup(m, results[0], keys, key); }
        (Lookup(m, key) + head) + tail;
        Lookup(m, key) + (head + tail);
        Lookup(m, key) + Matches(results, mapKeyword, key);
      }
    }
  }

  /** Adding two batches one after the other is adding their concatenation. */
  lemma {:induction false} AddConcat(m: SuggestionsMap, a: seq<Suggestion>, b: seq<Suggestion>, mapKeyword: string -> seq<string>)
    ensures Add(Add(m, a, mapKeyword), b, mapKeyword) == Add(m, a + b, mapKeyword)
    decreases |a|
  {
    if a == [] {
      assert a + b == b;
    } else {
      assert (a + b)[0] == a[0];
      assert (a + b)[1..] == a[1..] + b;
      AddConcat(AddUnderKeys(m, a[0], MapKeys(a[0], mapKeyword)), a[1..], b, mapKeyword);
    }
  }

  /** All suggestions of `records`, in record order. */
  function Flatten(records: seq<Record>): seq<Suggestion> {
    if records == [] then [] else Flatten(records[..|records| - 1]) + records[|records| - 1].results
  }

  /** With the assumed `add`, a sync adds all suggestions of all records to an empty map at once. */
  lemma {:induction false} SyncedMapIsOneAdd(records: seq<Record>, mapKeyword: string -> seq<string>)
    ensures SyncedMap(records, AssumedAdd(mapKeyword)) == Add(map[], Flatten(records), mapKeyword)
    decreases |records|
  {
    if records != [] {
      var init := records[..|records| - 1];
      SyncedMapIsOneAdd(init, mapKeyword);
      AddConcat(map[], Flatten(init), records[|records| - 1].results, mapKeyword);
    }
  }

  /** With the assumed `add`, a key holds exactly the matching suggestions of all records after a sync, in order. */
  lemma SyncedMapLookup(records: seq<Record>, mapKeyword: string -> seq<string>, key: string)
    ensures Lookup(SyncedMap(records, AssumedAdd(mapKeyword)), key) == Matches(Flatten(records), mapKeyword, key)
  {
    SyncedMapIsOneAdd(records, mapKeyword);
    AddLookup(map[], Flatten(records), mapKeyword, key);
  }

  /** The `{ ...suggestion }` copy: a fresh object with the same fields. */
  function Copy(s: Suggestion): Suggestion {
    Suggestion(s.url, s.title, s.description, s.keywords)
  }

  // ---------------------------------------------------------------------------
  // Results and result-menu commands
  // ---------------------------------------------------------------------------

  const MdnIcon: string := "chrome://global/skin/icons/mdn.svg"
  const MdnBottomTextId: string := "firefox-suggest-mdn-bottom-text"

  /** The payload of the URL result built for a suggestion. */
  datatype Payload = Payload(
    icon: string,
    url: string,
    title: string,
    description: string,
    shouldShowUrl: bool,
    bottomTextL10nId: string)  // the `id` of `bottomTextL10n`

  /** One entry of the result menu: a command with a name, or a submenu with children. */
  datatype MenuCommand = MenuCommand(name: Option<string>, l10nId: Option<string>, children: seq<MenuCommand>)

  const Help: string := "help"
  const NotInterested: string := "not_interested"
  const NotRelevant: string := "not_relevant"
  const Dismiss: string := "dismiss"
  const Separator: string := "separator"

  /** `getResultCommands`: a "don't show" submenu, a separator and "help". */
  function ResultCommands(): (commands: seq<MenuCommand>)
    // the leaf commands, in menu order
    ensures LeafNames(commands) == [NotRelevant, NotInterested, Separator, Help]
    // the first entry is an unnamed submenu holding the two dismissal commands
    ensures |commands| == 3 && commands[0].name.None? && LeafNames(commands[0].children) == [NotRelevant, NotInterested]
  {
    var dontShow := [
      MenuCommand(Some(NotRelevant), Some("firefox-suggest-command-not-relevant"), []),
      MenuCommand(Some(NotInterested), Some("firefox-suggest-command-not-interested"), [])
    ];
    var rest := [
      MenuCommand(Some(Separator), None, []),
      MenuCommand(Some(Help), Some("urlbar-result-menu-learn-more-about-firefox-suggest"), [])
    ];
    var commands := [MenuCommand(None, Some("firefox-suggest-command-dont-show-mdn"), dontShow)] + rest;
    assert LeafNames(rest[1..]) == [Help];
    assert LeafNames(rest) == [Separator, Help];
    assert LeafNames(dontShow[1..]) == [NotInterested];
    assert LeafNames(dontShow) == [NotRelevant, NotInterested];
    assert commands[1..] == rest;
    commands
  }

  /** The names of the commands at the leaves of a menu, in menu order. */
  function LeafNames(commands: seq<MenuCommand>): seq<string>
    decreases commands
  {
    if commands == [] then []
    else
      var c := commands[0];
      (if c.children == [] then (if c.name.Some? then [c.name.value] else []) else LeafNames(c.children))
      + LeafNames(commands[1..])
  }

  /** What `handleCommand` does for a selection type. */
  datatype CommandAction = NoAction | BlockUrl | DisableMdn

  /** The case of `handleCommand`'s switch that a selection type takes. */
  function ActionFor(selType: string): (action: CommandAction)
    // "dismiss" and "not_relevant" share one case, "not_interested" has its own
    ensures action == BlockUrl <==> selType == Dismiss || selType == NotRelevant
    ensures action == DisableMdn <==> selType == NotInterested
    // every other selection, "help" among them (the input field handles it), does nothing here
    ensures action == NoAction <==> selType !in {Dismiss, NotRelevant, NotInterested}
  {
    if selType == Dismiss || selType == NotRelevant then BlockUrl
    else if selType == NotInterested then DisableMdn
    else NoAction
  }

  /**
   * Every command the result menu offers is acted on by `handleCommand`,
   * except the separator, which cannot be selected, and "help", which the
   * input field handles.
   */
  lemma ResultCommandsAreHandled()
    ensures forall name :: name in LeafNames(ResultCommands()) && name != Separator && name != Help ==>
      ActionFor(name) != NoAction
    ensures ActionFor(Help) == NoAction
  {
    var names := LeafNames(ResultCommands());
    assert names == [NotRelevant, NotInterested, Separator, Help];
    forall name | name in names && name != Separator && name != Help
      ensures ActionFor(name) != NoAction
    {
      assert name == NotRelevant || name == NotInterested;
    }
  }

  // ---------------------------------------------------------------------------
  // The feature object
  // ---------------------------------------------------------------------------

  /** `MDNSuggestions`, together with the host state it reads and writes. */
  class MDNSuggestions {
    /** The urlbar preference store. */
    var prefs: map<string, bool>
    /** URLs of suggestions the user has dismissed. */
    var blockedSuggestions: set<string>
    /** The host's current verdict on whether the feature is enabled. */
    var isEnabled: bool
    /** `#suggestionsMap`: `None` until a sync has completed. */
    var suggestionsMap: Option<SuggestionsMap>

    constructor (prefs: map<string, bool>, blockedSuggestions: set<string>, isEnabled: bool)
      ensures this.prefs == prefs && this.blockedSuggestions == blockedSuggestions
      ensures this.isEnabled == isEnabled && suggestionsMap == None
    {
      this.prefs := prefs;
      this.blockedSuggestions := blockedSuggestions;
      this.isEnabled := isEnabled;
      suggestionsMap := None;
    }

    /** `shouldEnable` over the current preferences. */
    function ShouldEnable(): (on: bool)
      reads this
      // the feature is wanted exactly when every one of its enabling preferences is on
      ensures on <==> forall name :: name in EnablingPreferences ==> PrefValue(prefs, name)
    {
      ShouldEnableWith(prefs)
    }

    /** `queryRemoteSettings`: copies of the suggestions stored under the search string. */
    function QueryRemoteSettings(searchString: string): (r: seq<Suggestion>)
      reads this
      ensures suggestionsMap.None? ==> r == []
      ensures suggestionsMap.Some? ==>
        |r| == |Lookup(suggestionsMap.value, searchString)| &&
        forall i :: 0 <= i < |r| ==> r[i] == Lookup(suggestionsMap.value, searchString)[i]
    {
      match suggestionsMap
      case None => []
      case Some(m) =>
        if searchString in m then seq(|m[searchString]|, i requires 0 <= i < |m[searchString]| => Copy(m[searchString][i]))
        else []
    }

    /** `makeResult`: no result while the feature is disabled, otherwise a URL result for the suggestion. */
    function MakeResult(suggestion: Suggestion): (r: Option<Payload>)
      reads this
      ensures r.None? <==> !isEnabled
      ensures r.Some? ==> r.value.url == suggestion.url && r.value.title == suggestion.title
                          && r.value.description == suggestion.description && r.value.icon == MdnIcon
                          && r.value.shouldShowUrl && r.value.bottomTextL10nId == MdnBottomTextId
    {
      if !isEnabled then None
      else Some(Payload(MdnIcon, suggestion.url, suggestion.title, suggestion.description, true, MdnBottomTextId))
    }

    /**
     * `onRemoteSettingsSync`. The sync awaits the record fetch and then, per
     * record, the attachment download and the add; the host may switch the
     * feature off while it waits. `observed` is the value of `isEnabled` at
     * each of those `1 + 2 * |records|` checkpoints, in order. The map is
     * replaced only when every checkpoint finds the feature enabled.
     */
    method OnRemoteSettingsSync(records: seq<Record>, add: AddFunction, observed: seq<bool>)
      requires |observed| == 1 + 2 * |records|
      modifies this
      ensures isEnabled == (forall k :: 0 <= k < |observed| ==> observed[k])
      ensures suggestionsMap == if isEnabled then Some(SyncedMap(records, add)) else old(suggestionsMap)
      ensures prefs == old(prefs) && blockedSuggestions == old(blockedSuggestions)
    {
      isEnabled := observed[0];
      if !isEnabled {
        return;
      }
      var built: SuggestionsMap := map[];
      var i := 0;
      while i < |records|
        invariant 0 <= i <= |records|
        invariant isEnabled
        invariant forall k :: 0 <= k < 1 + 2 * i ==> observed[k]
        invariant built == SyncedMap(records[..i], add)
        invariant prefs == old(prefs) && blockedSuggestions == old(blockedSuggestions)
        invariant suggestionsMap == old(suggestionsMap)
      {
        isEnabled := observed[1 + 2 * i];
        if !isEnabled {
          return;
        }
        built := add(built, records[i].results);
        isEnabled := observed[2 + 2 * i];
        if !isEnabled {
          return;
        }
        assert records[..i + 1][..i] == records[..i];
        i := i + 1;
      }
      assert records[..i] == records;
      suggestionsMap := Some(built);
    }

    /** `handleCommand` for the result `result` and the menu selection `selType`. */
    method HandleCommand(result: Payload, selType: string)
      modifies this
      // "dismiss" and "not_relevant" block the result's URL and nothing else
      ensures selType == Dismiss || selType == NotRelevant ==>
        blockedSuggestions == old(blockedSuggestions) + {result.url} && prefs == old(prefs)
      // "not_interested" turns `suggest.mdn` off, which closes the gate, and nothing else
      ensures selType == NotInterested ==>
        prefs == old(prefs)[SuggestMdnPref := false] && blockedSuggestions == old(blockedSuggestions) && !ShouldEnable()
      // any other selection, "help" among them, changes nothing
      ensures selType !in {Dismiss, NotRelevant, NotInterested} ==>
        prefs == old(prefs) && blockedSuggestions == old(blockedSuggestions)
      ensures isEnabled == old(isEnabled) && suggestionsMap == old(suggestionsMap)
    {
      match ActionFor(selType)
      case BlockUrl =>
        blockedSuggestions := blockedSuggestions + {result.url};
      case DisableMdn =>
        prefs := prefs[SuggestMdnPref := false];
        SuggestMdnOffDisables(old(prefs));
      case NoAction =>
    }
  }

  /**
   * With the assumed `add`, once a sync has completed a query answers exactly
   * the matching suggestions of all synced records.
   */
  lemma QueryAfterSync(feature: MDNSuggestions, records: seq<Record>, mapKeyword: string -> seq<string>, searchString: string)
    requires feature.suggestionsMap == Some(SyncedMap(records, AssumedAdd(mapKeyword)))
    ensures feature.QueryRemoteSettings(searchString) == Matches(Flatten(records), mapKeyword, searchString)
  {
    SyncedMapLookup(records, mapKeyword, searchString);
  }
}
