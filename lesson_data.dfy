/**
 * The built-in lesson list and its lookups (src/utils/lessonData.ts).
 */
module LessonData {
  import opened JsValues
  import opened Types

  /** `LESSONS`: five lessons, ids 1 to 5 in order. */
  const LESSONS: seq<Lesson> := [
    Lesson(
      1,
      "Lesson 1: Greetings",
      "Hello! My name is Sarah. Nice to meet you. How are you today?",
      "https://files2.heygen.ai/aws_pacific/avatar_tmp/c69dde3abe474a2398cdf77154d948f9/0bfc0bfb98d5493da4e26b4c47ff4733.mp4?Expires=1762605114&Signature=de6Y98Pd5wWbAhbEskd5Sl-cKtclV0NfTUJKLiCYKMwDD60kIxWtrrqpQBRJ-WAX8YxzMCex7VtpP3BaurEA8nrBwzaSIoZFaWh0vFZrkbFR5FzSNr4qd6vyBx8JkFwCCeeTyJhLenXvu2T0X6HRLkt7SKx08adf0psYKwveQJyY4S0VDa1Wb3KfEfeI6WoM2zrUKa0Rgj1EPMPfvDy7HXhqrrzhrttRMi2OCmh9Fj4wXb1MPlmi8fR9SxpRRfS9ae0E5AkYn1DrL2EEeMtaEp2CuuI~x7WRepmM6I7NWNDZYLoCdpHEYxHDMXyed64SOJfYQuJdEBJLn5LFq~InNQ__&Key-Pair-Id=K38HBHX5LX3X2H",
      Some(Beginner)),
    Lesson(
      2,
      "Lesson 2: Daily Routine",
      "I wake up at seven o'clock every morning. I have breakfast and then I go to work.",
      "https://files2.heygen.ai/aws_pacific/avatar_tmp/c69dde3abe474a2398cdf77154d948f9/19f2ca9cc32e48cba1b3b9e5ab5ac91a.mp4?Expires=1762606774&Signature=Ie6PimRpqkmGT~99mtR7vaWBHE6K0-eHZ0-3Df-7788YOvuj4Imt8X8XRa19wWN3eWQn0dy9GtzkV7j4yCW0RV~ApnI5ymRbn-UHgHtK4UBx93HvTnEzRtXvUsoT1rbdLUHtK~pXXWkh126eTTtCdlyheYDqZWE6L8nlYpfekEFG~sehkyoCp7sCOF-jMFi-5HTuUOiIt8NWQFcCVDv6jj7yxXDtYdeb4Cw~nWHFdEvflA1K-khxt3AQc3yodybxwOs4ZpWE95DFMI8qxQ7JKzjBU4bSpefbn52zCnLvHCQeE4DgKm26MlyeEBFF3umVvbRrNpx8o1MMJk0qyhV3tA__&Key-Pair-Id=K38HBHX5LX3X2H",
      Some(Beginner)),
    Lesson(
      3,
      "Lesson 3: Shopping",
      "Excuse me, how much does this cost? Can I pay by credit card? Thank you very much.",
      "https://files2.heygen.ai/aws_pacific/avatar_tmp/c69dde3abe474a2398cdf77154d948f9/304c9523ca4d4dc0b3b6f533560abc98.mp4?Expires=1762606957&Signature=OBI0du7GhKmUJM3bXWd-5LlnF-CDhu6APImjiZQSdErrgxTmyE2NeNmgZ9A7zLOSFihkuTVyPG5xUBzmeJZmI83P-8xrorxK05ttCHXg~9M~nxWvwhOC4vYR3YdkQtyMtUEA1t0KilfzarQ8V5MCPm1b-A2yV2xnsqP2jmNGs5IhDOaXe8BLt2yH0nybBOxs8oCKWC8MRAWrsFGk1Uo1c~LIpDcNhS1DwoO2vCPHmucUNUdBP0Y-QN85fRAKkTJwnHF84eG1AdSOJgyyJhFDYyifF2jnXtoUC9wCjTRh6x~xWXsWUWB0DU6jY~2Q2hfCB~GnpAzCBq0IoPZqhUfA3w__&Key-Pair-Id=K38HBHX5LX3X2H",
      Some(Intermediate)),
    Lesson(
      4,
      "Lesson 4: Weather",
      "The weather is beautiful today. It's sunny and warm. Perfect for a walk in the park.",
      "https://files2.heygen.ai/aws_pacific/avatar_tmp/b04373fa04af4f7cb56f91affb2538e4/34e6060fa7974155bc1b4c8b9c79cdbe.mp4?Expires=1762607348&Signature=OXuKKe-Bt6D6OwRrFzHR9JV5eFi88Ja9kUJUTvUQEr5ss7hfxneAKKpgTzbzULDZ4m3RWeM-NvNwCeVfsMKL5jj36vhQ-Lr2F-30UTpTcZ2TiwIha7nP6ahDsQ7uiWs8PExYPGEnO9b1e5HB~l-LSmlay-6P2pV7Gdzs-8RKUTc9bTpjnsDu9FlxVZyRAYnFaoixHpn3LdH6tjvs6nT~iJoYn8Rilm~3PRPHH6ADzUtkVq6e89fmt~IXJ5-40s4rq3zt9ayEUswXR8h8sIrJm7asJEiqLlDolsGeD-Djl-MR8-BPJ-1E-a5~4Slp6DccmBYKEyBq~95exZnY1he~kg__&Key-Pair-Id=K38HBHX5LX3X2H",
      Some(Intermediate)),
    Lesson(
      5,
      "Lesson 5: Travel",
      "I love traveling to different countries. Last summer I visited Paris and saw the Eiffel Tower.",
      "https://files2.heygen.ai/aws_pacific/avatar_tmp/b04373fa04af4f7cb56f91affb2538e4/fc058c909d774cbf8cd98418b84a9650.mp4?Expires=1762607817&Signature=EbUgVARIKAwWOJsaq~XP6kVz76V3avM8N~NLCG0boFmN5JHhj5bKn2ZiwuZ5wtxEN~CFeL82GHKxsZD~7aGA2Z9gb0kakxWZKKhBT2QXSMROS52~p0MULBKiEwgMEemmFdkTWbPZdbwXOBqpwFpAyPWfzKYhjfwDJW5u4iWj4miLQTUOmZMyo9wUA80s3-ChhaPwqvpjUs-5mw38eWlyEzXs3Xe-nvv2wnR-QcrXaSHRLTKPQIIY~P-TMWY-KI2qQxS4Xiy~MMQ6Vqkd2rr~rZQKm36HyO4ERXlSQl57YnBmLJu4~tPlLAYgzFgZe8Z6jBTy510dAxbMrSoUm4YpxA__&Key-Pair-Id=K38HBHX5LX3X2H",
      Some(Advanced))
  ]

  /** Lesson `k` of the list has id `k + 1`. */
  lemma LessonIds()
    ensures |LESSONS| == 5
    ensures forall k :: 0 <= k < |LESSONS| ==> LESSONS[k].id == k + 1
  {
  }

  /** No two lessons of the list share an id. */
  predicate DistinctIds(lessons: seq<Lesson>) {
    forall i, j :: 0 <= i < j < |lessons| ==> lessons[i].id != lessons[j].id
  }

  /** The built-in list has distinct ids. */
  lemma LessonIdsDistinct()
    ensures DistinctIds(LESSONS)
  {
    LessonIds();
  }

  /** `lessons.findIndex(lesson => lesson.id === id)`. */
  function FindIndex(lessons: seq<Lesson>, id: int): (i: int)
    ensures -1 <= i < |lessons|
    ensures i == -1 <==> forall k :: 0 <= k < |lessons| ==> lessons[k].id != id
    ensures i != -1 ==> lessons[i].id == id && forall k :: 0 <= k < i ==> lessons[k].id != id
  {
    if lessons == [] then -1
    else if lessons[|lessons| - 1].id == id && FindIndex(lessons[..|lessons| - 1], id) == -1 then |lessons| - 1
    else FindIndex(lessons[..|lessons| - 1], id)
  }

  /** With distinct ids, the lesson at position `k` is found at `k`. */
  lemma FindIndexOfDistinct(lessons: seq<Lesson>, k: int)
    requires DistinctIds(lessons) && 0 <= k < |lessons|
    ensures FindIndex(lessons, lessons[k].id) == k
  {
  }

  /** `lessons.find(lesson => lesson.id === id)`. */
  function FindById(lessons: seq<Lesson>, id: int): (r: Option<Lesson>)
    ensures r.Some? <==> exists k :: 0 <= k < |lessons| && lessons[k].id == id
    ensures r.Some? ==> r.value.id == id && r.value == lessons[FindIndex(lessons, id)]
  {
    var i := FindIndex(lessons, id);
    if i == -1 then None else Some(lessons[i])
  }

  /** The lesson after the one with id `currentId`, if there is one. */
  function NextIn(lessons: seq<Lesson>, currentId: int): (r: Option<Lesson>)
    ensures var i := FindIndex(lessons, currentId);
      && (r.Some? <==> i != -1 && i != |lessons| - 1)
      && (r.Some? ==> r.value == lessons[i + 1])
  {
    var i := FindIndex(lessons, currentId);
    if i == -1 || i == |lessons| - 1 then None else Some(lessons[i + 1])
  }

  /** The lesson before the one with id `currentId`, if there is one. */
  function PreviousIn(lessons: seq<Lesson>, currentId: int): (r: Option<Lesson>)
    ensures var i := FindIndex(lessons, currentId);
      && (r.Some? <==> i != -1 && i != 0)
      && (r.Some? ==> r.value == lessons[i - 1])
  {
    var i := FindIndex(lessons, currentId);
    if i == -1 || i == 0 then None else Some(lessons[i - 1])
  }

  /** In any list with distinct ids, stepping forward and then back returns to the same lesson. */
  lemma NextThenPreviousIn(lessons: seq<Lesson>, id: int)
    requires DistinctIds(lessons)
    requires NextIn(lessons, id).Some?
    ensures PreviousIn(lessons, NextIn(lessons, id).value.id) == FindById(lessons, id)
  {
    var i := FindIndex(lessons, id);
    FindIndexOfDistinct(lessons, i + 1);
  }

  /** In any list with distinct ids, stepping back and then forward returns to the same lesson. */
  lemma PreviousThenNextIn(lessons: seq<Lesson>, id: int)
    requires DistinctIds(lessons)
    requires PreviousIn(lessons, id).Some?
    ensures NextIn(lessons, PreviousIn(lessons, id).value.id) == FindById(lessons, id)
  {
    var i := FindIndex(lessons, id);
    FindIndexOfDistinct(lessons, i - 1);
  }

  /** In `LESSONS` the position of id `n` is `n - 1`. */
  lemma LessonPosition(id: int)
    ensures FindIndex(LESSONS, id) == if 1 <= id <= |LESSONS| then id - 1 else -1
  {
    LessonIds();
    if 1 <= id <= |LESSONS| {
      assert LESSONS[id - 1].id == id;
    }
  }

  /** `getLessonById`: the lesson with that id, or undefined. */
  function GetLessonById(id: int): (r: Option<Lesson>)
    ensures r.Some? <==> 1 <= id <= |LESSONS|
    ensures r.Some? ==> r.value.id == id && r.value == LESSONS[id - 1]
  {
    LessonPosition(id);
    FindById(LESSONS, id)
  }

  /** `getNextLesson`: undefined for an unknown id and for the last lesson, else the one after. */
  function GetNextLesson(currentId: int): (r: Option<Lesson>)
    ensures r.Some? <==> 1 <= currentId < |LESSONS|
    ensures r.Some? ==> r.value.id == currentId + 1 && r.value == LESSONS[currentId]
  {
    LessonPosition(currentId);
    LessonIds();
    NextIn(LESSONS, currentId)
  }

  /** `getPreviousLesson`: undefined for an unknown id and for the first lesson, else the one before. */
  function GetPreviousLesson(currentId: int): (r: Option<Lesson>)
    ensures r.Some? <==> 1 < currentId <= |LESSONS|
    ensures r.Some? ==> r.value.id == currentId - 1 && r.value == LESSONS[currentId - 2]
  {
    LessonPosition(currentId);
    LessonIds();
    PreviousIn(LESSONS, currentId)
  }

  /** For every lesson but the last, the previous lesson of its next lesson is itself. */
  lemma NextThenPrevious(id: int)
    requires GetNextLesson(id).Some?
    ensures GetPreviousLesson(GetNextLesson(id).value.id) == GetLessonById(id)
  {
    LessonIdsDistinct();
    NextThenPreviousIn(LESSONS, id);
  }

  /** For every lesson but the first, the next lesson of its previous lesson is itself. */
  lemma PreviousThenNext(id: int)
    requires GetPreviousLesson(id).Some?
    ensures GetNextLesson(GetPreviousLesson(id).value.id) == GetLessonById(id)
  {
    LessonIdsDistinct();
    PreviousThenNextIn(LESSONS, id);
  }
}
