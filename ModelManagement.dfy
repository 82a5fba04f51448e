/** The model registry panel (src/components/ModelManagement.tsx): a list of
    saved model tags `<name>_<date>`, the name field and the save dialog. The
    list itself is the application's `savedModels` state, handed to the panel
    together with its setter; here the panel object holds it. The clock is a
    parameter: callers pass the ISO timestamp `new Date().toISOString()` gives. */
module ModelManagement {
  import opened Strings

  /** `timestamp.split('T')[0]`: the calendar date of an ISO timestamp. */
  function DatePart(isoTimestamp: string): (date: string)
    ensures 'T' !in date
    ensures |date| <= |isoTimestamp| && date == isoTimestamp[..|date|]
    ensures |date| == |isoTimestamp| || isoTimestamp[|date|] == 'T'
  {
    SplitFirstPiece(isoTimestamp, 'T');
    Split(isoTimestamp, 'T')[0]
  }

  /** The tag a successful save appends: the trimmed name, '_', then the date. */
  function ModelTag(name: string, isoTimestamp: string): (tag: string)
    ensures |tag| == |Trim(name)| + 1 + |DatePart(isoTimestamp)|
    ensures tag[..|Trim(name)|] == Trim(name) && tag[|Trim(name)|] == '_'
    ensures tag[|Trim(name)| + 1..] == DatePart(isoTimestamp)
    ensures 'T' !in tag[|Trim(name)| + 1..]
  {
    Trim(name) + "_" + DatePart(isoTimestamp)
  }

  /** The bold line of a list entry, `model.split('_')[0]`: the tag up to its
      first '_', or the whole tag when it has none. */
  function DisplayName(tag: string): (shown: string)
    ensures '_' !in shown
    ensures |shown| <= |tag| && shown == tag[..|shown|]
    ensures |shown| == |tag| || tag[|shown|] == '_'
  {
    SplitFirstPiece(tag, '_');
    Split(tag, '_')[0]
  }

  /** The date line of a list entry, `model.split('_').slice(1).join('_')`:
      everything after the first '_', and nothing when there is none. */
  function DisplayDate(tag: string): (date: string)
    ensures '_' in tag ==> tag == DisplayName(tag) + ['_'] + date
    ensures '_' !in tag ==> date == []
  {
    var pieces := Split(tag, '_');
    JoinSplit(tag, '_');
    if |pieces| == 1 then
      assert tag == pieces[0];
      []
    else
      JoinCons(pieces[0], pieces[1..], '_');
      assert pieces == [pieces[0]] + pieces[1..];
      Join(pieces[1..], '_')
  }

  /** `savedModels.filter(m => m !== model)`. */
  function Without(models: seq<string>, model: string): (r: seq<string>)
    ensures model !in r
    ensures forall m :: m in r <==> m in models && m != model
    ensures |r| <= |models|
  {
    if models == [] then []
    else if models[0] != model then [models[0]] + Without(models[1..], model)
    else Without(models[1..], model)
  }

  /** Deleting keeps the other entries in order: it distributes over concatenation. */
  lemma {:induction false} WithoutConcat(a: seq<string>, b: seq<string>, model: string)
    ensures Without(a + b, model) == Without(a, model) + Without(b, model)
  {
    if a != [] {
      WithoutConcat(a[1..], b, model);
      assert (a + b)[1..] == a[1..] + b;
    } else {
      assert a + b == b;
    }
  }

  /** Deleting an entry that is not there changes nothing. */
  lemma {:induction false} WithoutAbsent(models: seq<string>, model: string)
    requires model !in models
    ensures Without(models, model) == models
  {
    if models != [] {
      WithoutAbsent(models[1..], model);
    }
  }

  /** Deleting twice is deleting once. */
  lemma WithoutIdempotent(models: seq<string>, model: string)
    ensures Without(Without(models, model), model) == Without(models, model)
  {
    WithoutAbsent(Without(models, model), model);
  }

  /** Deleting removes every copy: the count drops by the number of copies. */
  lemma {:induction false} WithoutCount(models: seq<string>, model: string)
    ensures |Without(models, model)| == |models| - multiset(models)[model]
  {
    if models != [] {
      WithoutCount(models[1..], model);
      assert models == [models[0]] + models[1..];
    }
  }

  /** A name without '_' comes back from a tag exactly, and so does the date. */
  lemma TagDisplayRoundTrip(name: string, isoTimestamp: string)
    requires '_' !in Trim(name)
    ensures DisplayName(ModelTag(name, isoTimestamp)) == Trim(name)
    ensures DisplayDate(ModelTag(name, isoTimestamp)) == DatePart(isoTimestamp)
  {
    var date := DatePart(isoTimestamp);
    assert ModelTag(name, isoTimestamp) == Trim(name) + ['_'] + date;
    SplitPrefix(Trim(name), date, '_');
    JoinSplit(date, '_');
  }

  /** A name containing '_' is shown cut at its first underscore: the shown
      name is the part before it, and differs from the name saved. */
  lemma TagDisplayCut(name: string, isoTimestamp: string)
    requires '_' in Trim(name)
    ensures DisplayName(ModelTag(name, isoTimestamp)) != Trim(name)
    ensures var shown := DisplayName(ModelTag(name, isoTimestamp));
            '_' !in shown && |shown| < |Trim(name)| && Trim(name)[..|shown|] == shown
            && Trim(name)[|shown|] == '_'
  {
    var n := Trim(name);
    assert ModelTag(name, isoTimestamp) == n + ['_'] + DatePart(isoTimestamp);
    FirstPieceCut(n, DatePart(isoTimestamp));
  }

  /** The first piece of `a + "_" + b`, when `a` holds a '_', ends before that '_'. */
  lemma FirstPieceCut(a: string, b: string)
    requires '_' in a
    ensures Split(a + ['_'] + b, '_')[0] == a[..IndexOfChar(a, '_')]
  {
    var k := IndexOfChar(a, '_');
    var rest := a[k + 1..] + ['_'] + b;
    assert a + ['_'] + b == a[..k] + ['_'] + rest;
    SplitPrefix(a[..k], rest, '_');
  }

  /** The position of the first occurrence of `c`. */
  function IndexOfChar(s: string, c: char): (k: nat)
    requires c in s
    ensures k < |s| && s[k] == c && c !in s[..k]
  {
    if s[0] == c then 0 else IndexOfChar(s[1..], c) + 1
  }

  /** The position of the last occurrence of `c`. */
  function LastIndexOfChar(s: string, c: char): (k: nat)
    requires c in s
    ensures k < |s| && s[k] == c && c !in s[k + 1..]
  {
    if s[|s| - 1] == c then |s| - 1
    else
      assert c in s[..|s| - 1] by {
        var i :| 0 <= i < |s| && s[i] == c;
        assert s[..|s| - 1][i] == c;
      }
      var k := LastIndexOfChar(s[..|s| - 1], c);
      assert s[k + 1..] == s[..|s| - 1][k + 1..] + [s[|s| - 1]];
      k
  }

  /** The list entry's name read as everything before the last '_', which is
      where the tag's date begins. */
  function SavedName(tag: string): string {
    if '_' in tag then tag[..LastIndexOfChar(tag, '_')] else tag
  }

  /** The list entry's date read as everything after the last '_'. */
  function SavedDate(tag: string): string {
    if '_' in tag then tag[LastIndexOfChar(tag, '_') + 1..] else []
  }

  /** In `a + [c] + b` with no `c` in `b`, the last `c` is the one after `a`. */
  lemma LastIndexAfter(a: string, c: char, b: string)
    requires c !in b
    ensures c in a + [c] + b
    ensures LastIndexOfChar(a + [c] + b, c) == |a|
  {
    var s := a + [c] + b;
    assert s[|a|] == c;
    var k := LastIndexOfChar(s, c);
    assert forall i :: |a| < i < |s| ==> s[i] == b[i - |a| - 1];
    assert forall i :: k < i < |s| ==> s[k + 1..][i - k - 1] == s[i];
  }

  /** Cutting at the last '_' recovers every saved name, underscores and all,
      and its date, because the date part of an ISO timestamp has no '_'. */
  lemma SavedNameRoundTrip(name: string, isoTimestamp: string)
    requires '_' !in DatePart(isoTimestamp)
    ensures SavedName(ModelTag(name, isoTimestamp)) == Trim(name)
    ensures SavedDate(ModelTag(name, isoTimestamp)) == DatePart(isoTimestamp)
  {
    var n := Trim(name);
    var date := DatePart(isoTimestamp);
    var tag := ModelTag(name, isoTimestamp);
    assert tag == n + ['_'] + date;
    LastIndexAfter(n, '_', date);
    assert tag[..|n|] == n && tag[|n| + 1..] == date;
  }

  /** A name with an underscore, such as "soil_v2", is listed as "soil",
      while the last-'_' reading gives it back whole. */
  lemma UnderscoreNameListed(isoTimestamp: string)
    requires '_' !in DatePart(isoTimestamp)
    ensures DisplayName(ModelTag("soil_v2", isoTimestamp)) == "soil"
    ensures SavedName(ModelTag("soil_v2", isoTimestamp)) == "soil_v2"
  {
    SoilTrimmed();
    assert "soil_v2" == "soil" + ['_'] + "v2";
    ListedBeforeFirstUnderscore("soil", "v2", isoTimestamp);
    SavedNameRoundTrip("soil_v2", isoTimestamp);
  }

  lemma ListedBeforeFirstUnderscore(a: string, b: string, isoTimestamp: string)
    requires '_' !in a
    requires Trim(a + ['_'] + b) == a + ['_'] + b
    ensures DisplayName(ModelTag(a + ['_'] + b, isoTimestamp)) == a
  {
    var rest := b + ['_'] + DatePart(isoTimestamp);
    assert ModelTag(a + ['_'] + b, isoTimestamp) == a + ['_'] + rest;
    SplitPrefix(a, rest, '_');
  }

  lemma SoilTrimmed()
    ensures Trim("soil_v2") == "soil_v2"
  {
    TrimmedWord("soil_v2");
  }

  // A parameter rather than the literal "soil_v2": applied to a literal, Trim
  // would be unfolded character by character beyond the verifier's budget.
  lemma TrimmedWord(name: string)
    requires name != [] && name[0] == 's' && name[|name| - 1] == '2'
    ensures Trim(name) == name
  {
    TrimTrimmed(name);
  }

  /** The panel's state: the saved tags, the name being typed and whether the
      save dialog is open. */
  class ModelPanel {
    var savedModels: seq<string>
    var modelName: string
    var showSaveDialog: bool

    constructor ()
      ensures savedModels == [] && modelName == "" && !showSaveDialog
    {
      savedModels, modelName, showSaveDialog := [], "", false;
    }

    /** The "Save Model" button, which is only rendered once there are results. */
    method OpenSaveDialog(hasResults: bool)
      modifies this
      ensures showSaveDialog == (old(showSaveDialog) || hasResults)
      ensures savedModels == old(savedModels) && modelName == old(modelName)
    {
      if hasResults {
        showSaveDialog := true;
      }
    }

    /** Typing in the name field. */
    method SetModelName(name: string)
      modifies this
      ensures modelName == name
      ensures savedModels == old(savedModels) && showSaveDialog == old(showSaveDialog)
    {
      modelName := name;
    }

    /** The "Cancel" button: closes the dialog and clears the name. */
    method CancelSave()
      modifies this
      ensures !showSaveDialog && modelName == ""
      ensures savedModels == old(savedModels)
    {
      showSaveDialog := false;
      modelName := "";
    }

    /** `saveModel`: a blank name changes nothing; otherwise exactly one tag
        is appended at the end (duplicates allowed), the name is cleared and
        the dialog closed. */
    method SaveModel(isoTimestamp: string)
      modifies this
      ensures AllWhitespace(old(modelName)) ==>
                savedModels == old(savedModels) && modelName == old(modelName)
                && showSaveDialog == old(showSaveDialog)
      ensures !AllWhitespace(old(modelName)) ==>
                savedModels == old(savedModels) + [ModelTag(old(modelName), isoTimestamp)]
                && modelName == "" && !showSaveDialog
    {
      TrimSpec(modelName);
      if Trim(modelName) != [] {
        savedModels := savedModels + [ModelTag(modelName, isoTimestamp)];
        modelName := "";
        showSaveDialog := false;
      }
    }

    /** `deleteModel`: every entry equal to `model` goes, the others stay in order. */
    method DeleteModel(model: string)
      modifies this
      ensures savedModels == Without(old(savedModels), model)
      ensures modelName == old(modelName) && showSaveDialog == old(showSaveDialog)
    {
      savedModels := Without(savedModels, model);
    }

    /** `loadModel` only logs the request. */
    method LoadModel(model: string)
      ensures savedModels == old(savedModels) && modelName == old(modelName)
      ensures showSaveDialog == old(showSaveDialog)
    {
    }
  }
}
