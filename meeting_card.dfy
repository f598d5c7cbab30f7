/**
 * The meeting card's loosely typed reads of a Granola meeting: the participant
 * list, taken from the first of four fields that holds text or a list, and the
 * date line with its fallback.
 */
module MeetingCard {
  import opened Common
  import opened Text
  import opened JsValue

  const DateNotAvailable: string := "Date not available"

  /** The fields that may carry participants, in the order they are tried. */
  const ParticipantFields: seq<string> := ["participants", "participant_names", "attendees", "people"]

  /**
   * `formatMeetingDate`: the fallback for an absent or empty date and for one the date
   * parser rejects (`getTime()` is NaN); otherwise the formatter's text. `parse` gives the
   * time value or `None` for an invalid date, `format` is the `en-US` formatter.
   */
  function FormatMeetingDate(startedAt: Option<string>, parse: string -> Option<int>, format: int -> string): (r: string)
    ensures !Truthy(startedAt) ==> r == DateNotAvailable
    ensures Truthy(startedAt) && parse(startedAt.value).None? ==> r == DateNotAvailable
    ensures Truthy(startedAt) && parse(startedAt.value).Some? ==> r == format(parse(startedAt.value).value)
  {
    if !Truthy(startedAt) then DateNotAvailable
    else
      match parse(startedAt.value)
      case None => DateNotAvailable
      case Some(time) => format(time)
  }

  /**
   * The name an array entry contributes before the empty ones are dropped: a trimmed
   * string, the trimmed string `name` of an object, or "" for anything else.
   */
  function EntryName(entry: Json): (r: string)
    ensures IsTrimmed(r)
    ensures entry.JStr? ==> r == Trim(entry.s)
    ensures !entry.JStr? && AsString(Get(entry, "name")).Some? ==> r == Trim(AsString(Get(entry, "name")).value)
    ensures !entry.JStr? && AsString(Get(entry, "name")).None? ==> r == ""
  {
    if entry.JStr? then Trim(entry.s)
    else
      match AsString(Get(entry, "name"))
      case Some(name) => Trim(name)
      case None => ""
  }

  /** The participants one field yields, or `None` when it is neither a string nor an array. */
  function FromCandidate(candidate: Option<Json>): (r: Option<seq<string>>)
    ensures r.Some? <==> candidate.Some? && (candidate.value.JStr? || candidate.value.JArr?)
    ensures r.Some? && candidate.value.JArr? ==> |r.value| <= |candidate.value.items|
  {
    if candidate.None? then None
    else
      match candidate.value
      case JStr(s) => Some(NonEmpty(TrimAll(Split(s, ','))))
      case JArr(items) => Some(NonEmpty(seq(|items|, i requires 0 <= i < |items| => EntryName(items[i]))))
      case _ => None
  }

  /** The loop over the candidate fields: the first one that is a string or an array decides. */
  function FirstDeciding(candidates: seq<Option<Json>>): (r: seq<string>)
    ensures (forall k :: 0 <= k < |candidates| ==> FromCandidate(candidates[k]).None?) ==> r == []
    ensures forall k :: 0 <= k < |candidates| && FromCandidate(candidates[k]).Some? && NoneBefore(candidates, k) ==>
      r == FromCandidate(candidates[k]).value
  {
    if |candidates| == 0 then []
    else
      match FromCandidate(candidates[0])
      case Some(names) => names
      case None =>
        assert forall k :: 1 <= k < |candidates| ==> candidates[k] == candidates[1..][k - 1];
        assert forall k :: 1 <= k < |candidates| && NoneBefore(candidates, k) ==> NoneBefore(candidates[1..], k - 1);
        FirstDeciding(candidates[1..])
  }

  /** No candidate before index `k` is a string or an array. */
  predicate NoneBefore(candidates: seq<Option<Json>>, k: int) {
    forall j :: 0 <= j < k && j < |candidates| ==> FromCandidate(candidates[j]).None?
  }

  /** `toParticipantList`: only non-empty, trimmed names reach the card. */
  function ToParticipantList(meeting: Json): (r: seq<string>)
    ensures forall k :: 0 <= k < |r| ==> r[k] != "" && IsTrimmed(r[k])
  {
    var candidates := seq(|ParticipantFields|, i requires 0 <= i < |ParticipantFields| => Get(meeting, ParticipantFields[i]));
    ParticipantsClean(candidates);
    FirstDeciding(candidates)
  }

  /** Every candidate yields only non-empty, trimmed names. */
  lemma CandidateNamesClean(candidate: Option<Json>)
    requires FromCandidate(candidate).Some?
    ensures forall k :: 0 <= k < |FromCandidate(candidate).value| ==>
      FromCandidate(candidate).value[k] != "" && IsTrimmed(FromCandidate(candidate).value[k])
  {
    var v := candidate.value;
    if v.JStr? {
      NonEmptyTrimmed(TrimAll(Split(v.s, ',')));
    } else {
      var names := seq(|v.items|, i requires 0 <= i < |v.items| => EntryName(v.items[i]));
      NonEmptyTrimmed(names);
    }
  }

  /**
   * The first candidate that is a string or an array decides the list, even when it yields
   * no names; the candidates after it are never read.
   */
  lemma {:induction false} FirstDecidingIsFirstListOrText(candidates: seq<Option<Json>>, k: nat)
    requires k < |candidates| && FromCandidate(candidates[k]).Some?
    requires forall j :: 0 <= j < k ==> FromCandidate(candidates[j]).None?
    ensures FirstDeciding(candidates) == FromCandidate(candidates[k]).value
  {
    if k > 0 {
      assert FromCandidate(candidates[0]).None?;
      FirstDecidingIsFirstListOrText(candidates[1..], k - 1);
    }
  }

  /** With no candidate a string or an array, there are no participants. */
  lemma {:induction false} NoListOrTextNoParticipants(candidates: seq<Option<Json>>)
    requires forall j :: 0 <= j < |candidates| ==> FromCandidate(candidates[j]).None?
    ensures FirstDeciding(candidates) == []
  {
    if |candidates| > 0 {
      assert FromCandidate(candidates[0]).None?;
      NoListOrTextNoParticipants(candidates[1..]);
    }
  }

  /** The list the card shows holds only non-empty, trimmed names. */
  lemma {:induction false} ParticipantsClean(candidates: seq<Option<Json>>)
    ensures forall k :: 0 <= k < |FirstDeciding(candidates)| ==>
      FirstDeciding(candidates)[k] != "" && IsTrimmed(FirstDeciding(candidates)[k])
  {
    if |candidates| > 0 {
      if FromCandidate(candidates[0]).Some? {
        CandidateNamesClean(candidates[0]);
      } else {
        ParticipantsClean(candidates[1..]);
      }
    }
  }

  /**
   * A comma-separated text gives exactly its non-blank pieces, trimmed: every name is a
   * trimmed piece, and every piece that is not blank appears trimmed.
   */
  lemma TextCandidateNames(s: string, piece: string)
    ensures var names := FromCandidate(Some(JStr(s))).value;
      && (forall k :: 0 <= k < |names| ==> names[k] in TrimAll(Split(s, ',')))
      && (piece in Split(s, ',') && !IsBlank(piece) ==> Trim(piece) in names)
  {
    var trimmed := TrimAll(Split(s, ','));
    NonEmptyMembers(trimmed);
    if piece in Split(s, ',') && !IsBlank(piece) {
      var i :| 0 <= i < |Split(s, ',')| && Split(s, ',')[i] == piece;
      assert trimmed[i] == Trim(piece);
      NonEmptyKeeps(trimmed, Trim(piece));
    }
  }

  /** Joining the pieces back with commas gives the original text: no character is lost by the split. */
  lemma TextCandidatePiecesCover(s: string)
    ensures Join(Split(s, ','), [',']) == s
  {
    JoinSplit(s, ',');
  }

  /** The fields are tried in order: a string `participants` wins over any `attendees` list. */
  lemma ParticipantsFieldWins(text: string, attendees: seq<Json>)
    ensures ToParticipantList(JObj([("attendees", JArr(attendees)), ("participants", JStr(text))]))
      == NonEmpty(TrimAll(Split(text, ',')))
  {
    var meeting := JObj([("attendees", JArr(attendees)), ("participants", JStr(text))]);
    var candidates := seq(|ParticipantFields|, i requires 0 <= i < |ParticipantFields| => Get(meeting, ParticipantFields[i]));
    assert "attendees"[0] != "participants"[0];
    assert meeting.entries[1..] == [("participants", JStr(text))];
    assert Lookup(meeting.entries, "participants") == Some(JStr(text));
    assert candidates[0] == Get(meeting, "participants");
    FirstDecidingIsFirstListOrText(candidates, 0);
  }

  /** An empty `participants` list still decides: the names in `people` are not consulted. */
  lemma EmptyListStillDecides(people: string)
    ensures ToParticipantList(JObj([("participants", JArr([])), ("people", JStr(people))])) == []
  {
    var meeting := JObj([("participants", JArr([])), ("people", JStr(people))]);
    var candidates := seq(|ParticipantFields|, i requires 0 <= i < |ParticipantFields| => Get(meeting, ParticipantFields[i]));
    assert candidates[0] == Get(meeting, "participants");
    FirstDecidingIsFirstListOrText(candidates, 0);
  }
}
