/** The event creation form: time normalisation, date-time assembly, tag editing and the
    image file checks. */
module CreateEvent {
  import opened Wrappers
  import opened Text

  /** `^(\d{1,2}):(\d{2})$`: one or two digits, a colon, two digits. */
  predicate IsClockShape(t: string) {
    || (|t| == 4 && IsDigit(t[0]) && t[1] == ':' && IsDigit(t[2]) && IsDigit(t[3]))
    || (|t| == 5 && IsDigit(t[0]) && IsDigit(t[1]) && t[2] == ':' && IsDigit(t[3]) && IsDigit(t[4]))
  }

  /** The hour group, padded to two digits. */
  function HourText(t: string): (h: string)
    requires IsClockShape(t)
    ensures |h| == 2 && IsDigit(h[0]) && IsDigit(h[1])
  {
    if |t| == 4 then "0" + t[..1] else t[..2]
  }

  function MinuteText(t: string): (m: string)
    requires IsClockShape(t)
    ensures |m| == 2 && IsDigit(m[0]) && IsDigit(m[1])
  {
    t[|t| - 2..]
  }

  function TwoDigitValue(d: string): nat
    requires |d| == 2 && IsDigit(d[0]) && IsDigit(d[1])
  {
    10 * DigitValue(d[0]) + DigitValue(d[1])
  }

  /** A clock reading in range: hour 0-23, minute 0-59. */
  predicate IsValidClock(t: string) {
    IsClockShape(t) && TwoDigitValue(HourText(t)) <= 23 && TwoDigitValue(MinuteText(t)) <= 59
  }

  /** A trimmed reading: a valid H:MM or HH:MM becomes HH:MM with the same hour and minute;
      anything else is kept. */
  function NormaliseClock(t: string): (r: string)
    ensures IsValidClock(t) ==>
      (IsValidClock(r) && |r| == 5 && TwoDigitValue(HourText(r)) == TwoDigitValue(HourText(t))
       && TwoDigitValue(MinuteText(r)) == TwoDigitValue(MinuteText(t)))
    ensures !IsValidClock(t) ==> r == t
    ensures IsValidClock(t) && |t| == 5 ==> r == t
  {
    if IsValidClock(t) then
      var h, m := HourText(t), MinuteText(t);
      var r := h + ":" + m;
      assert HourText(r) == h && MinuteText(r) == m;
      assert |t| == 5 ==> r == t;
      r
    else t
  }

  /** `formatTime`: the trimmed input, normalised when it is a clock reading. */
  function FormatTime(time: string): (r: string)
    ensures time == "" ==> r == ""
    ensures time != "" ==> r == NormaliseClock(Trim(time))
  {
    if time == "" then "" else NormaliseClock(Trim(time))
  }

  /** Formatting an already formatted time changes nothing. */
  lemma FormatTimeIdempotent(time: string)
    ensures FormatTime(FormatTime(time)) == FormatTime(time)
  {
    var r := FormatTime(time);
    if r != "" {
      var t := Trim(time);
      if IsValidClock(t) {
        assert NormaliseClock(r) == r;
        TrimOfTrimmed(r);
      } else {
        TrimIdempotent(time);
      }
    }
  }

  /** `combineDateTime`: "" when either part is missing, else `<date>T<formatted time>`. */
  function CombineDateTime(date: string, time: string): string {
    if date == "" || time == "" then "" else date + "T" + FormatTime(time)
  }

  /** `updateDateTime` formats the time and then `combineDateTime` formats it again: the second
      pass changes nothing, except that a time of only white space yields no date-time at all. */
  lemma DoubleFormatting(date: string, time: string)
    ensures FormatTime(time) != "" ==> CombineDateTime(date, FormatTime(time)) == CombineDateTime(date, time)
    ensures CombineDateTime(date, time) == "" <==> date == "" || time == ""
  {
    FormatTimeIdempotent(time);
  }

  lemma BlankTimeDropped(date: string, time: string)
    requires date != "" && time != "" && Trim(time) == ""
    ensures CombineDateTime(date, FormatTime(time)) == ""
    ensures CombineDateTime(date, time) == date + "T"
  {
    assert FormatTime(time) == "";
  }

  /** `filter((_, i) => i !== index)`: the list without the element at `index`. */
  function RemoveAt<T>(s: seq<T>, index: int): (r: seq<T>)
    ensures 0 <= index < |s| ==>
      (|r| == |s| - 1 && (forall j :: 0 <= j < index ==> r[j] == s[j])
       && (forall j :: index <= j < |r| ==> r[j] == s[j + 1]))
    ensures !(0 <= index < |s|) ==> r == s
  {
    if 0 <= index < |s| then s[..index] + s[index + 1..] else s
  }

  const MaxImageBytes: nat := 5 * 1024 * 1024
  const NotImageMessage := "Molimo izaberite sliku"
  const TooLargeMessage := "Slika ne sme biti veća od 5MB"

  datatype FileInfo = FileInfo(mimeType: string, size: nat)

  /** The rejection message for a chosen file, if it is refused. */
  function FileRejection(f: FileInfo): (r: Option<string>)
    ensures r.None? <==> StartsWith(f.mimeType, "image/") && f.size <= MaxImageBytes
    ensures !StartsWith(f.mimeType, "image/") ==> r == Some(NotImageMessage)
    ensures StartsWith(f.mimeType, "image/") && f.size > MaxImageBytes ==> r == Some(TooLargeMessage)
  {
    if !StartsWith(f.mimeType, "image/") then Some(NotImageMessage)
    else if f.size > MaxImageBytes then Some(TooLargeMessage)
    else None
  }

  /** The form state that the tag, date-time and file handlers touch. `startDate`..`endTime`
      hold what was typed; `start` and `end` the combined values sent to the server;
      `rejection` the last error toast of the file check. */
  datatype FormState = FormState(
    tags: seq<string>, tagInput: string,
    startDate: string, startTime: string, endDate: string, endTime: string,
    start: string, end: string,
    file: Option<FileInfo>, image: Option<string>, rejection: Option<string>)

  function AddTagStep(st: FormState): FormState {
    var t := Trim(st.tagInput);
    if t != "" then st.(tags := st.tags + [t], tagInput := "") else st
  }

  function RemoveTagStep(st: FormState, index: int): FormState {
    st.(tags := RemoveAt(st.tags, index))
  }

  function UpdateDateTimeStep(st: FormState, isStart: bool, date: string, time: string): FormState {
    var combined := CombineDateTime(date, FormatTime(time));
    if isStart then st.(startDate := date, startTime := time, start := combined)
    else st.(endDate := date, endTime := time, end := combined)
  }

  function FileChangeStep(st: FormState, selected: Option<FileInfo>): FormState {
    match selected
    case None => st
    case Some(f) =>
      match FileRejection(f)
      case Some(m) => st.(rejection := Some(m))
      case None => st.(file := Some(f), image := None)
  }

  class EventForm {
    var tags: seq<string>
    var tagInput: string
    var startDate: string
    var startTime: string
    var endDate: string
    var endTime: string
    var start: string
    var end: string
    var file: Option<FileInfo>
    var image: Option<string>
    var rejection: Option<string>

    function Snapshot(): FormState
      reads this
    {
      FormState(tags, tagInput, startDate, startTime, endDate, endTime, start, end, file, image, rejection)
    }

    constructor()
      ensures Snapshot() == FormState([], "", "", "", "", "", "", "", None, None, None)
    {
      tags := [];
      tagInput := "";
      startDate, startTime, endDate, endTime := "", "", "", "";
      start, end := "", "";
      file, image, rejection := None, None, None;
    }

    method SetTagInput(text: string)
      modifies this
      ensures Snapshot() == old(Snapshot()).(tagInput := text)
    {
      tagInput := text;
    }

    method AddTag()
      modifies this
      ensures Snapshot() == AddTagStep(old(Snapshot()))
    {
      var t := Trim(tagInput);
      if t != "" {
        tags := tags + [t];
        tagInput := "";
      }
    }

    method RemoveTag(index: int)
      modifies this
      ensures Snapshot() == RemoveTagStep(old(Snapshot()), index)
    {
      tags := RemoveAt(tags, index);
    }

    method UpdateDateTime(isStart: bool, date: string, time: string)
      modifies this
      ensures Snapshot() == UpdateDateTimeStep(old(Snapshot()), isStart, date, time)
    {
      ghost var before := Snapshot();
      var combined := CombineDateTime(date, FormatTime(time));
      if isStart {
        startDate, startTime, start := date, time, combined;
        assert Snapshot() == before.(startDate := date, startTime := time, start := combined);
      } else {
        endDate, endTime, end := date, time, combined;
        assert Snapshot() == before.(endDate := date, endTime := time, end := combined);
      }
    }

    method HandleFileChange(selected: Option<FileInfo>)
      modifies this
      ensures Snapshot() == FileChangeStep(old(Snapshot()), selected)
    {
      if selected.Some? {
        var r := FileRejection(selected.value);
        if r.Some? {
          rejection := r;
          return;
        }
        file := selected;
        image := None;
      }
    }
  }
}

module CreateEventProperties {
  import opened Wrappers
  import opened Text
  import opened CreateEvent

  /** `addTag` appends the trimmed input and clears it exactly when the input is not blank. */
  lemma AddTagAppendsTrimmed(st: FormState)
    ensures Trim(st.tagInput) != "" ==>
      AddTagStep(st).tags == st.tags + [Trim(st.tagInput)] && AddTagStep(st).tagInput == ""
    ensures Trim(st.tagInput) == "" ==> AddTagStep(st) == st
    ensures forall t :: t in AddTagStep(st).tags ==> t in st.tags || t == Trim(st.tagInput)
  {
  }

  /** An input of only white space, such as spaces, an ideographic space or a no-break space,
      adds no tag. */
  lemma BlankTagIgnored(st: FormState)
    requires st.tagInput == " \U{3000}\U{00A0}\U{2009}"
    ensures AddTagStep(st) == st
  {
    assert TrimStart(st.tagInput) == [];
  }

  /** Adding a tag and then removing the last one restores the tag list. */
  lemma AddThenRemoveLast(st: FormState)
    requires Trim(st.tagInput) != ""
    ensures RemoveTagStep(AddTagStep(st), |st.tags|).tags == st.tags
  {
    var s := AddTagStep(st).tags;
    assert s[..|st.tags|] == st.tags;
  }

  /** The file is stored, and any image URL cleared, exactly when it passes both checks. */
  lemma FileAcceptedIff(st: FormState, f: FileInfo)
    ensures FileChangeStep(st, Some(f)).file == Some(f) && FileChangeStep(st, Some(f)).image.None?
      <== StartsWith(f.mimeType, "image/") && f.size <= MaxImageBytes
    ensures !(StartsWith(f.mimeType, "image/") && f.size <= MaxImageBytes) ==>
      FileChangeStep(st, Some(f)) == st.(rejection := FileRejection(f))
  {
  }

  /** An image of exactly 5 MiB passes; one byte more is refused. */
  lemma SizeBoundary(st: FormState)
    ensures FileRejection(FileInfo("image/png", 5242880)).None?
    ensures FileRejection(FileInfo("image/png", 5242881)) == Some(TooLargeMessage)
  {
    assert StartsWith("image/png", "image/");
  }
}
