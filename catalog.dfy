/** Python's `None`-or-value, and the success-or-exception outcome of a foreign call. */
module Results {
  datatype Option<T> = None | Some(value: T)

  /** What a call into a foreign client yields: its value, or the text `str(e)` of the exception it raised. */
  datatype Outcome<T> = Ok(value: T) | Err(details: string)
}

/**
 * The field catalog: the five travel preferences in the order they are
 * asked, the question for each, and the fixed assistant messages.
 */
module Catalog {

  /** One of the five keys of `user_info` ("destination", "budget", ...). */
  datatype Field = Destination | Budget | Activities | Duration | Accommodation

  /** `ORDERED_FIELDS`: the order in which the questions are asked. */
  const OrderedFields: seq<Field> := [Destination, Budget, Activities, Duration, Accommodation]

  /** The position of a field in `ORDERED_FIELDS`. */
  function Index(f: Field): (i: nat)
    ensures i < |OrderedFields| && OrderedFields[i] == f
  {
    match f
    case Destination => 0
    case Budget => 1
    case Activities => 2
    case Duration => 3
    case Accommodation => 4
  }

  /** `QUESTIONS_MAP`. */
  function Question(f: Field): string {
    match f
    case Destination => "🌍 Where would you like to travel?"
    case Budget => "💰 What is your budget for this trip?"
    case Activities => "🤸 What kind of activities do you prefer? (e.g., adventure, relaxation, sightseeing)"
    case Duration => "⏳ How many days do you plan to stay?"
    case Accommodation => "🏨 Do you prefer hotels, hostels, or Airbnbs?"
  }

  const InitialMessage: string := "👋 Welcome! Type `START` to begin planning your travel itinerary."
  const StartConfirmation: string := "🚀 Great! Let's plan your trip. " + Question(OrderedFields[0])
  const RestartMessage: string := "✅ Restarted! Type `START` to begin again."
  const InvalidStartMessage: string := "❗ Please type `START` to begin the travel itinerary process."
  const ItineraryReadyMessage: string := "✅ Your travel itinerary is ready!"

  /** `ORDERED_FIELDS` lists every field exactly once. */
  lemma OrderedFieldsComplete()
    ensures |OrderedFields| == 5
    ensures forall f: Field :: f in OrderedFields
    ensures forall i, j :: 0 <= i < j < |OrderedFields| ==> OrderedFields[i] != OrderedFields[j]
  {
    forall f: Field ensures f in OrderedFields {
      assert OrderedFields[Index(f)] == f;
    }
  }

  /** The `missing_fields` shape the assistant maintains: what is left of `ORDERED_FIELDS` after dropping some of its head. */
  predicate IsPendingSuffix(pending: seq<Field>) {
    |pending| <= |OrderedFields| && pending == OrderedFields[|OrderedFields| - |pending|..]
  }

  /** The fields in front of `pending` in the canonical order: those already asked and answered. */
  function Answered(pending: seq<Field>): (fs: set<Field>)
    requires IsPendingSuffix(pending)
    ensures forall f :: f in fs <==> f !in pending
  {
    var n := |OrderedFields| - |pending|;
    OrderedFieldsComplete();
    var fs := set i | 0 <= i < n :: OrderedFields[i];
    assert forall f: Field :: f in pending <==> f in OrderedFields[n..];
    forall f: Field ensures f in fs <==> f !in pending {
      var k := Index(f);
      assert f in OrderedFields[n..] <==> k >= n;
    }
    fs
  }

  /** Dropping the head of a pending suffix moves exactly that field into the answered set. */
  lemma AnswerHead(pending: seq<Field>)
    requires IsPendingSuffix(pending) && pending != []
    ensures IsPendingSuffix(pending[1..])
    ensures pending[0] !in pending[1..]
    ensures Answered(pending[1..]) == Answered(pending) + {pending[0]}
  {
    OrderedFieldsComplete();
    var n := |OrderedFields| - |pending|;
    assert pending[1..] == OrderedFields[n + 1..];
    assert pending[0] == OrderedFields[n];
  }
}
