/** The editor's state machine: the loaded audio, the timeline of rendered
    samples with their letters, the selected sample, the selection-info text
    and the zoom level, and the event handlers that change them. The DOM is
    modelled by what the handlers read back from it: for each rendered
    sample, the text of its letter display and whether it carries the
    "has-letter" and "selected" classes. */
module Editor {
  import opened Wrappers
  import opened Zoom
  import opened Keys
  import opened SelectionInfo

  /** The identity every sample element carries: its channel (1 or 2) and its index. */
  datatype SampleRef = SampleRef(channel: nat, index: nat)

  /** The two channels of decoded amplitudes, as the decoder returns them. */
  datatype AudioData = AudioData(channel1: seq<real>, channel2: seq<real>)

  /** Whether the timeline of `audio` has an element for `k`: one per entry
      of each channel, numbered by position. */
  predicate IsRendered(audio: Option<AudioData>, k: SampleRef) {
    audio.Some? &&
    ((k.channel == 1 && k.index < |audio.value.channel1|) ||
     (k.channel == 2 && k.index < |audio.value.channel2|))
  }

  /** The letter displays after writing `letter` into the one for `k`; when
      no element exists for `k` nothing is written. */
  function Assigned(letters: map<SampleRef, string>, k: SampleRef, letter: string): (m: map<SampleRef, string>)
    ensures m.Keys == letters.Keys
    ensures k in letters ==> m[k] == letter
    ensures k !in letters ==> m == letters
    ensures forall j | j in letters && j != k :: m[j] == letters[j]
  {
    if k in letters then letters[k := letter] else letters
  }

  /** Writing a letter and then blanking it leaves the displays as blanking
      alone would; on a freshly rendered (blank) sample that is where it started. */
  lemma AssignThenClear(letters: map<SampleRef, string>, k: SampleRef, letter: string)
    ensures Assigned(Assigned(letters, k, letter), k, "") == Assigned(letters, k, "")
    ensures k in letters && letters[k] == "" ==> Assigned(Assigned(letters, k, letter), k, "") == letters
  {
  }

  /** Writing labels keeps every display a label. */
  lemma AssignedKeepsLabels(letters: map<SampleRef, string>, k: SampleRef, letter: string)
    requires forall j | j in letters :: IsLabel(letters[j])
    requires IsLabel(letter)
    ensures forall j | j in Assigned(letters, k, letter) :: IsLabel(Assigned(letters, k, letter)[j])
  {
  }

  class EditorState {
    /** The decoded audio, absent until the first load. */
    var audio: Option<AudioData>
    /** The sample the user last clicked, if any. */
    var selected: Option<SampleRef>
    /** The sample width in pixels. */
    var zoom: int
    /** The text of each rendered sample's letter display. */
    var letters: map<SampleRef, string>
    /** The rendered samples carrying the "has-letter" class. */
    var marked: set<SampleRef>
    /** The rendered samples carrying the "selected" class. */
    var highlighted: set<SampleRef>
    /** The text of the selection-info element. */
    var info: string

    /** The timeline shows exactly the samples of the loaded audio; a
        sample is marked exactly when its letter display is not blank, and
        only the selected sample can be highlighted. */
    ghost predicate ViewValid()
      reads this
    {
      (forall k :: k in letters <==> IsRendered(audio, k)) &&
      (forall k :: k in marked <==> k in letters && letters[k] != "") &&
      (forall k | k in highlighted :: k in letters && selected == Some(k))
    }

    /** The object invariant: the view is consistent, the zoom is a level
        the buttons can reach, and a selection exists only over loaded audio. */
    ghost predicate Valid()
      reads this
    {
      ViewValid() &&
      IsZoomLevel(zoom) &&
      (selected.Some? ==> audio.Some? && selected.value.channel in {1, 2})
    }

    /** Every letter display holds a label: blank or one uppercase letter. */
    ghost predicate Labelled()
      reads this
    {
      forall k | k in letters :: IsLabel(letters[k])
    }

    /** The page before any audio is loaded; `initialInfo` is whatever the
        page's markup puts in the selection-info element. */
    constructor (initialInfo: string)
      ensures Valid() && Labelled()
      ensures audio == None && selected == None && zoom == DefaultZoom
      ensures letters == map[] && marked == {} && highlighted == {} && info == initialInfo
    {
      audio := None;
      selected := None;
      zoom := DefaultZoom;
      letters := map[];
      marked := {};
      highlighted := {};
      info := initialInfo;
    }

    /** Rebuilds the timeline from the loaded audio: every old element is
        dropped and one fresh element, blank and unclassed, is created per
        entry of each channel. */
    method RenderTimeline()
      modifies this
      ensures audio == old(audio) && selected == old(selected) && zoom == old(zoom) && info == old(info)
      ensures old(audio).None? ==> letters == old(letters) && marked == old(marked) && highlighted == old(highlighted)
      ensures old(audio).Some? ==> ViewValid() && Labelled()
      ensures old(audio).Some? ==> marked == {} && highlighted == {}
      ensures old(audio).Some? ==> forall k | k in letters :: letters[k] == ""
    {
      if audio.None? {
        return;
      }
      var data := audio.value;
      var view: map<SampleRef, string> := map[];
      var i := 0;
      while i < |data.channel1|
        invariant 0 <= i <= |data.channel1|
        invariant forall k :: k in view <==> k.channel == 1 && k.index < i
        invariant forall k | k in view :: view[k] == ""
      {
        view := view[SampleRef(1, i) := ""];
        i := i + 1;
      }
      var j := 0;
      while j < |data.channel2|
        invariant 0 <= j <= |data.channel2|
        invariant forall k :: k in view <==>
          (k.channel == 1 && k.index < |data.channel1|) || (k.channel == 2 && k.index < j)
        invariant forall k | k in view :: view[k] == ""
      {
        view := view[SampleRef(2, j) := ""];
        j := j + 1;
      }
      letters := view;
      marked := {};
      highlighted := {};
    }

    /** Stores newly decoded audio and re-renders: all letters are blank
        again, but the selection is kept, even when it no longer names a
        rendered sample, and the selection-info text is not refreshed. */
    method LoadAudioData(channel1: seq<real>, channel2: seq<real>)
      requires Valid()
      modifies this
      ensures Valid() && Labelled()
      ensures audio == Some(AudioData(channel1, channel2))
      ensures selected == old(selected) && zoom == old(zoom) && info == old(info)
      ensures forall k :: k in letters <==>
        (k.channel == 1 && k.index < |channel1|) || (k.channel == 2 && k.index < |channel2|)
      ensures forall k | k in letters :: letters[k] == ""
      ensures marked == {} && highlighted == {}
    {
      audio := Some(AudioData(channel1, channel2));
      RenderTimeline();
    }

    /** Drops the selection and the "selected" class from every element;
        the selection-info text is left as it was. */
    method DeselectSamples()
      requires Valid()
      modifies this`selected, this`highlighted
      ensures Valid()
      ensures selected == None && highlighted == {}
    {
      selected := None;
      highlighted := {};
    }

    /** Refreshes the selection-info text from the selected sample's letter
        display; when that sample has no element the text is left alone. */
    method UpdateSelectionInfo()
      modifies this`info
      ensures selected.None? ==> info == ""
      ensures selected.Some? && selected.value in letters ==>
        info == InfoTextAsWritten(selected.value.channel, selected.value.index, letters[selected.value])
      ensures selected.Some? && selected.value !in letters ==> info == old(info)
    {
      match selected
      case None =>
        info := "";
      case Some(k) =>
        if k in letters {
          info := InfoTextAsWritten(k.channel, k.index, letters[k]);
        }
    }

    /** The click on a rendered sample: it becomes the one selected and
        highlighted sample, and the info text names it and its letter. */
    method SelectSample(channel: nat, index: nat)
      requires Valid()
      requires SampleRef(channel, index) in letters
      modifies this
      ensures Valid()
      ensures selected == Some(SampleRef(channel, index))
      ensures highlighted == {SampleRef(channel, index)}
      ensures info == InfoTextAsWritten(channel, index, letters[SampleRef(channel, index)])
      ensures audio == old(audio) && zoom == old(zoom)
      ensures letters == old(letters) && marked == old(marked)
    {
      DeselectSamples();
      highlighted := highlighted + {SampleRef(channel, index)};
      selected := Some(SampleRef(channel, index));
      UpdateSelectionInfo();
    }

    /** Writes `letter` into the letter display of the sample (channel,
        index), sets or clears its "has-letter" class to match, and
        refreshes the info text; does nothing when that sample has no element. */
    method AssignLetter(channel: nat, index: nat, letter: string)
      requires Valid()
      modifies this`letters, this`marked, this`info
      ensures Valid()
      ensures letters == Assigned(old(letters), SampleRef(channel, index), letter)
      ensures SampleRef(channel, index) in letters ==>
        (SampleRef(channel, index) in marked <==> letter != "")
      ensures SampleRef(channel, index) !in old(letters) ==> marked == old(marked) && info == old(info)
      ensures SampleRef(channel, index) in old(letters) ==>
        (selected.None? ==> info == "") &&
        (selected.Some? && selected.value in letters ==>
          info == InfoTextAsWritten(selected.value.channel, selected.value.index, letters[selected.value])) &&
        (selected.Some? && selected.value !in letters ==> info == old(info))
    {
      var k := SampleRef(channel, index);
      if k !in letters {
        return;
      }
      letters := letters[k := letter];
      if letter != "" {
        marked := marked + {k};
      } else {
        marked := marked - {k};
      }
      UpdateSelectionInfo();
    }

    /** The document's keydown handler. With a sample selected over loaded
        audio: Escape deselects; Backspace and Delete blank the letter and
        then fall through to the letter test, which they fail; a key whose
        upper-cased form is one character from A to Z becomes the letter. */
    method KeyDown(key: string)
      requires Valid()
      modifies this
      ensures Valid()
      ensures old(Labelled()) ==> Labelled()
      ensures audio == old(audio) && zoom == old(zoom)
      // Inert while nothing is selected or nothing is loaded.
      ensures old(selected).None? || old(audio).None? ==>
        selected == old(selected) && highlighted == old(highlighted) &&
        letters == old(letters) && marked == old(marked) && info == old(info)
      // Escape: drop the selection, touch nothing else.
      ensures old(selected).Some? && old(audio).Some? && Classify(key) == Deselect ==>
        selected == None && highlighted == {} &&
        letters == old(letters) && marked == old(marked) && info == old(info)
      // Backspace or Delete: blank the selected sample's letter.
      ensures old(selected).Some? && old(audio).Some? && Classify(key) == ClearLetter ==>
        var k := old(selected).value;
        selected == old(selected) && highlighted == old(highlighted) &&
        letters == Assigned(old(letters), k, "") && k !in marked &&
        info == (if k in old(letters) then InfoTextAsWritten(k.channel, k.index, "") else old(info))
      // A letter: give it, upper-cased, to the selected sample.
      ensures old(selected).Some? && old(audio).Some? && Classify(key).SetLetter? ==>
        var k := old(selected).value;
        var l := [Classify(key).letter];
        selected == old(selected) && highlighted == old(highlighted) &&
        letters == Assigned(old(letters), k, l) && (k in old(letters) ==> k in marked) &&
        info == (if k in old(letters) then InfoTextAsWritten(k.channel, k.index, l) else old(info))
      // Any other key changes nothing.
      ensures old(selected).Some? && old(audio).Some? && Classify(key) == Ignore ==>
        selected == old(selected) && highlighted == old(highlighted) &&
        letters == old(letters) && marked == old(marked) && info == old(info)
    {
      if selected.None? || audio.None? {
        return;
      }
      if key == "Escape" {
        DeselectSamples();
        return;
      }
      var k := selected.value;
      if key == "Backspace" || key == "Delete" {
        AssignLetter(k.channel, k.index, "");
      }
      LetterTestMatchesClassify(key);
      NamedKeysFailLetterTest();
      if PassesLetterTest(key) {
        AssignLetter(k.channel, k.index, ToUpper(key));
      }
    }

    /** The zoom-in button: one step up, capped at MaxZoom, nothing at MaxZoom. */
    method ZoomIn()
      requires Valid()
      modifies this`zoom
      ensures Valid()
      ensures zoom == ZoomedIn(old(zoom))
    {
      if zoom >= MaxZoom {
        return;
      }
      zoom := Min(zoom + ZoomStep, MaxZoom);
    }

    /** The zoom-out button: one step down, capped at MinZoom, nothing at MinZoom. */
    method ZoomOut()
      requires Valid()
      modifies this`zoom
      ensures Valid()
      ensures zoom == ZoomedOut(old(zoom))
    {
      if zoom <= MinZoom {
        return;
      }
      zoom := Max(zoom - ZoomStep, MinZoom);
    }
  }

  /** A letter typed on a selected, still blank sample, followed by
      Backspace, returns the timeline to its freshly rendered state; the
      selection and highlight stay where they were. */
  method TypeThenBackspace(e: EditorState, key: string)
    requires e.Valid()
    requires e.selected.Some? && e.selected.value in e.letters && e.letters[e.selected.value] == ""
    requires Classify(key).SetLetter?
    modifies e
    ensures e.Valid()
    ensures e.audio == old(e.audio) && e.zoom == old(e.zoom)
    ensures e.letters == old(e.letters) && e.marked == old(e.marked)
    ensures e.selected == old(e.selected) && e.highlighted == old(e.highlighted)
    ensures e.info == InfoTextAsWritten(e.selected.value.channel, e.selected.value.index, "")
  {
    ghost var before := e.letters;
    ghost var k := e.selected.value;
    e.KeyDown(key);
    assert e.letters == Assigned(before, k, [Classify(key).letter]);
    e.KeyDown("Backspace");
    AssignThenClear(before, k, [Classify(key).letter]);
  }
}
