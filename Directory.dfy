/** The response handling of `fetchSpeakers` and `fetchSpeaker` (api/index.tsx): the
    decoded reply of the speaker directory is checked and normalised. The HTTP request,
    the JSON decoding and the logging are I/O; a reply is given as a value. */
module Directory {
  import opened Wrappers
  import opened Shuffle

  /** The `status` field of a decoded payload, as JSON may carry it: a number (an
      integer here), a string, an array, or anything else (`null`, a boolean, an object,
      a missing field). */
  datatype StatusField =
    | NumberStatus(n: int)
    | StringStatus(s: string)
    | ArrayStatus(elems: seq<StatusField>)
    | OtherStatus

  /** The decimal digits of a natural number. */
  function Decimal(n: nat): (r: string)
    ensures |r| >= 1
    ensures n >= 10 ==> |r| >= 2
    decreases n
  {
    if n < 10 then ["0123456789"[n]] else Decimal(n / 10) + ["0123456789"[n % 10]]
  }

  /** `String(n)` for an integer. */
  function NumberString(n: int): string {
    if n < 0 then "-" + Decimal(-n) else Decimal(n)
  }

  /** `parts.join(",")`. */
  function Join(parts: seq<string>): (r: string)
    ensures |parts| >= 2 ==> ',' in r
    decreases |parts|
  {
    if |parts| == 0 then ""
    else if |parts| == 1 then parts[0]
    else parts[0] + "," + Join(parts[1..])
  }

  /** The string JavaScript's loose `==` compares with a string operand: a number is
      compared by value, which for an integer is the same as comparing its decimal
      string; an array is turned into the join of its elements. A boolean or an object
      never compares equal to "200", and `null` or a missing field never equals a
      string; the empty string stands for all of them (it is also what `null` becomes
      inside an array). */
  function LooseString(status: StatusField): string
    decreases status
  {
    match status
    case NumberStatus(n) => NumberString(n)
    case StringStatus(s) => s
    case ArrayStatus(elems) => Join(seq(|elems|, i requires 0 <= i < |elems| => LooseString(elems[i])))
    case OtherStatus => ""
  }

  lemma DigitOf(k: nat, c: char)
    requires k < 10 && "0123456789"[k] == c
    ensures c == '0' ==> k == 0
    ensures c == '2' ==> k == 2
  {
  }

  lemma DecimalIs200(n: nat)
    ensures Decimal(n) == "200" <==> n == 200
  {
    assert Decimal(2) == "2";
    assert Decimal(20) == Decimal(2) + "0";
    assert Decimal(200) == Decimal(20) + "0";
    if Decimal(n) == "200" {
      assert n >= 10;
      var d, c := Decimal(n / 10), "0123456789"[n % 10];
      assert d + [c] == "200";
      assert |d| == 2 && d == (d + [c])[..2] == "20" && c == (d + [c])[2] == '0';
      DigitOf(n % 10, c);
      assert n / 10 >= 10;
      var e, c' := Decimal(n / 10 / 10), "0123456789"[(n / 10) % 10];
      assert e + [c'] == "20";
      assert |e| == 1 && e == (e + [c'])[..1] == "2" && c' == (e + [c'])[1] == '0';
      DigitOf((n / 10) % 10, c');
      assert n / 10 / 10 < 10;
      DigitOf(n / 10 / 10, '2');
    }
  }

  /** `json.status != "200"` is false, so the check passes, for the string "200", the
      number 200, and an array of exactly one element that itself passes. */
  predicate IsSuccess(status: StatusField)
    ensures IsSuccess(status) <==> LooseString(status) == "200"
    decreases status
  {
    match status
    case NumberStatus(n) =>
      assert n < 0 ==> NumberString(n)[0] == '-';
      DecimalIs200(if n < 0 then 0 else n);
      n == 200
    case StringStatus(s) => s == "200"
    case ArrayStatus(elems) =>
      assert |elems| >= 2 ==> ',' in LooseString(status);
      |elems| == 1 && IsSuccess(elems[0])
    case OtherStatus => false
  }

  /** Why a directory call failed: the transport status, the payload's status with its
      message, or a body that could not be decoded or has no `data`. */
  datatype Error = HttpStatus(code: int) | PayloadStatus(message: string) | MalformedPayload

  /** A decoded JSON body; `data` is absent when the payload carries none, or, for a
      listing, when it has no `items` array (both throw a `TypeError` in the source). */
  datatype Payload<D> = Payload(status: StatusField, message: string, data: Option<D>)

  /** A transport response: `ok`, its status code and the body, absent when
      `response.json()` rejects. */
  datatype Reply<D> = Reply(ok: bool, code: int, body: Option<Payload<D>>)

  /** One entry of `data.items` in a listing. */
  datatype ListItem = ListItem(id: string, twitter: Option<string>)

  /** The `data` of a listing reply. */
  datatype SpeakerPage = SpeakerPage(items: seq<ListItem>)

  /** The `Speaker` record, also the shape of the `data` of a detail reply. */
  datatype Speaker = Speaker(
    id: string,
    sourceId: string,
    name: string,
    avatar: string,
    description: Option<string>,
    twitter: Option<string>)

  /** The checks both fetchers make, in their order: the transport status, the body,
      the payload status, and the presence of `data`. */
  function CheckReply<D>(reply: Reply<D>): (r: Result<D, Error>)
    ensures r.Ok? <==> reply.ok && reply.body.Some? && IsSuccess(reply.body.value.status)
                       && reply.body.value.data.Some?
    ensures r.Ok? ==> r.value == reply.body.value.data.value
    ensures !reply.ok ==> r == Err(HttpStatus(reply.code))
    ensures reply.ok && reply.body.None? ==> r == Err(MalformedPayload)
    ensures reply.ok && reply.body.Some? && !IsSuccess(reply.body.value.status)
            ==> r == Err(PayloadStatus(reply.body.value.message))
    ensures (reply.ok && reply.body.Some? && IsSuccess(reply.body.value.status)
             && reply.body.value.data.None?) ==> r == Err(MalformedPayload)
  {
    if !reply.ok then Err(HttpStatus(reply.code))
    else match reply.body
      case None => Err(MalformedPayload)
      case Some(payload) =>
        if !IsSuccess(payload.status) then Err(PayloadStatus(payload.message))
        else match payload.data
          case None => Err(MalformedPayload)
          case Some(data) => Ok(data)
  }

  /** `items.map(item => item.id)`. */
  function ItemIds(items: seq<ListItem>): (ids: seq<string>)
    ensures |ids| == |items|
    ensures forall k :: 0 <= k < |items| ==> ids[k] == items[k].id
  {
    seq(|items|, k requires 0 <= k < |items| => items[k].id)
  }

  /** The random indices `draws` fit the listing, whenever it has one. */
  predicate DrawsFit(reply: Reply<SpeakerPage>, draws: seq<nat>) {
    CheckReply(reply).Ok? ==> ValidDraws(draws, |CheckReply(reply).value.items|)
  }

  /** What `fetchSpeakers` returns for a listing reply: an error, or the ids of the
      listed speakers in shuffled order. */
  function FetchedIds(reply: Reply<SpeakerPage>, draws: seq<nat>): (r: Result<seq<string>, Error>)
    requires DrawsFit(reply, draws)
    ensures r.Ok? <==> CheckReply(reply).Ok?
    ensures r.Err? ==> CheckReply(reply) == Err(r.error)
    ensures r.Ok? ==> |r.value| == |CheckReply(reply).value.items|
    ensures r.Ok? ==> multiset(r.value) == multiset(ItemIds(CheckReply(reply).value.items))
  {
    match CheckReply(reply)
    case Err(e) => Err(e)
    case Ok(page) =>
      var ids := ItemIds(page.items);
      ShuffledIsPermutation(ids, draws);
      Ok(Shuffled(ids, draws))
  }

  /** `fetchSpeakers`: checks the reply, maps the items to their ids into a new array and
      shuffles it with `shuffleArray`. */
  method FetchSpeakers(reply: Reply<SpeakerPage>, draws: seq<nat>) returns (r: Result<seq<string>, Error>)
    requires DrawsFit(reply, draws)
    ensures r == FetchedIds(reply, draws)
  {
    var checked := CheckReply(reply);
    if checked.Err? {
      return Err(checked.error);
    }
    var ids := ItemIds(checked.value.items);
    var listed := new string[|ids|](k requires 0 <= k < |ids| => ids[k]);
    assert listed[..] == ids;
    var shuffled := ShuffleArray(listed, draws);
    return Ok(shuffled[..]);
  }

  /** `field || undefined`: an empty or missing string becomes absent. */
  function Normalize(field: Option<string>): (r: Option<string>)
    ensures r.None? <==> field.None? || field == Some("")
    ensures r.Some? ==> r == field
  {
    if field == Some("") then None else field
  }

  /** A record with no empty optional field. */
  predicate Normalized(speaker: Speaker) {
    speaker.description != Some("") && speaker.twitter != Some("")
  }

  /** What `fetchSpeaker` returns for a detail reply: an error, or the record with an
      empty `description` or `twitter` made absent and every other field copied. */
  function FetchSpeaker(reply: Reply<Speaker>): (r: Result<Speaker, Error>)
    ensures r.Ok? <==> CheckReply(reply).Ok?
    ensures r.Err? ==> CheckReply(reply) == Err(r.error)
    ensures r.Ok? ==> var raw := CheckReply(reply).value;
              r.value.id == raw.id && r.value.sourceId == raw.sourceId
              && r.value.name == raw.name && r.value.avatar == raw.avatar
              && r.value.description == Normalize(raw.description)
              && r.value.twitter == Normalize(raw.twitter)
    ensures r.Ok? ==> Normalized(r.value)
  {
    match CheckReply(reply)
    case Err(e) => Err(e)
    case Ok(raw) =>
      Ok(raw.(description := Normalize(raw.description), twitter := Normalize(raw.twitter)))
  }
}
