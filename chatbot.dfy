/** The subject chat assistant: relative times, the per-subject history
    kept in browser storage (capped at 50 messages), the study-material
    context search, and the message-append protocol of sending a question. */
module Chatbot {
  import opened Wrappers
  import opened Text
  import opened Lists
  import opened Subjects

  // ===================== Relative time =====================

  /** What `timeAgo` reports: a count and its unit. */
  datatype Ago = SecondsAgo(n: int) | MinutesAgo(n: int) | HoursAgo(n: int) | DaysAgo(n: int)

  /** `timeAgo(ms)` with the current time as a parameter: whole seconds
      (rounded down, also for a time in the future), then minutes, hours and
      days, each the floor of the previous unit. */
  function TimeAgo(now: int, ms: int): Ago {
    var s := (now - ms) / 1000;
    if s < 60 then SecondsAgo(s)
    else
      var m := s / 60;
      if m < 60 then MinutesAgo(m)
      else
        var h := m / 60;
        if h < 24 then HoursAgo(h) else DaysAgo(h / 24)
  }

  /** Flooring by a minute twice is flooring by an hour, and so on. */
  lemma NestedFloors(s: int)
    ensures s / 60 / 60 == s / 3600 && s / 60 / 60 / 24 == s / 86400
  {
  }

  /** The buckets by elapsed whole seconds s: seconds below a minute,
      minutes below an hour, hours below a day, days from then on, each
      count being s divided down to its unit. */
  lemma TimeAgoBuckets(now: int, ms: int)
    ensures var s := (now - ms) / 1000;
      (s < 60 ==> TimeAgo(now, ms) == SecondsAgo(s))
      && (60 <= s < 3600 ==> TimeAgo(now, ms) == MinutesAgo(s / 60))
      && (3600 <= s < 86400 ==> TimeAgo(now, ms) == HoursAgo(s / 3600))
      && (86400 <= s ==> TimeAgo(now, ms) == DaysAgo(s / 86400))
  {
    var s := (now - ms) / 1000;
    NestedFloors(s);
  }

  /** A time less than a second before now is "0s". */
  lemma TimeAgoRecent(now: int, ms: int)
    requires now - 1000 < ms <= now
    ensures TimeAgo(now, ms) == SecondsAgo(0)
  {
  }

  // ===================== Messages and stored history =====================

  datatype Role = User | Assistant

  datatype Msg = Msg(role: Role, content: string)

  /** What browser storage holds under a history key: nothing, parseable
      JSON, or text that does not parse. */
  datatype Stored = Parsed(msgs: seq<Msg>) | Unparsable

  /** The number of messages a history keeps. */
  const HistoryCap: nat := 50

  /** `loadHistory`: the stored messages, none when missing or unparsable. */
  function LoadHistory(store: map<Subject, Stored>, s: Subject): (r: seq<Msg>)
    ensures s !in store ==> r == []
    ensures s in store && store[s].Unparsable? ==> r == []
  {
    if s in store && store[s].Parsed? then store[s].msgs else []
  }

  /** `saveHistory`: only the last 50 messages are written. */
  function SaveHistory(store: map<Subject, Stored>, s: Subject, arr: seq<Msg>): map<Subject, Stored> {
    store[s := Parsed(TakeLast(arr, HistoryCap))]
  }

  /** Saving then loading gives back the last 50 messages (all of them when
      there are fewer), and every other subject's history is untouched. */
  lemma SaveLoad(store: map<Subject, Stored>, s: Subject, arr: seq<Msg>, other: Subject)
    ensures LoadHistory(SaveHistory(store, s, arr), s) == TakeLast(arr, HistoryCap)
    ensures |LoadHistory(SaveHistory(store, s, arr), s)| == if |arr| <= HistoryCap then |arr| else HistoryCap
    ensures |arr| <= HistoryCap ==> LoadHistory(SaveHistory(store, s, arr), s) == arr
    ensures other != s ==> LoadHistory(SaveHistory(store, s, arr), other) == LoadHistory(store, other)
  {
  }

  /** `copyLast`: the content of the most recent assistant message, if there
      is one and it is not empty. */
  function CopyLast(messages: seq<Msg>): (r: Option<string>)
    ensures r.Some? ==> r.value != []
    decreases |messages|
  {
    if messages == [] then None
    else
      var last := messages[|messages| - 1];
      if last.role == Assistant then (if last.content == [] then None else Some(last.content))
      else CopyLast(messages[..|messages| - 1])
  }

  /** CopyLast looks only at the last assistant message: with no later
      assistant message after position i, it copies message i, and copies
      nothing when message i is empty, whatever earlier answers say. */
  lemma {:induction false} CopyLastSpec(messages: seq<Msg>)
    ensures (forall i :: 0 <= i < |messages| ==> messages[i].role == User) ==> CopyLast(messages) == None
    ensures forall i ::
      (0 <= i < |messages| && messages[i].role == Assistant
       && (forall j :: i < j < |messages| ==> messages[j].role == User)) ==>
      CopyLast(messages) == if messages[i].content == [] then None else Some(messages[i].content)
    decreases |messages|
  {
    if messages != [] {
      var n := |messages| - 1;
      var init := messages[..n];
      CopyLastSpec(init);
      forall i | 0 <= i < |messages| && messages[i].role == Assistant
        && (forall j :: i < j < |messages| ==> messages[j].role == User)
        ensures CopyLast(messages) == if messages[i].content == [] then None else Some(messages[i].content)
      {
        if i < n {
          assert messages[n].role == User;
          assert init[i] == messages[i];
          assert forall j :: i < j < |init| ==> init[j] == messages[j];
        }
      }
      if forall i :: 0 <= i < |messages| ==> messages[i].role == User {
        assert messages[n].role == User;
        assert forall i :: 0 <= i < |init| ==> init[i] == messages[i];
      }
    }
  }

  // ===================== Context search =====================

  /** One study material; `name` may be missing. */
  datatype Material = Material(subject: string, name: Option<string>)

  /** The material store: nothing (or the empty string), text that does not
      parse, or a parsed list. */
  datatype Materials = NoMaterials | UnparsableMaterials | ParsedMaterials(items: seq<Material>)

  /** A material matches when it is of the subject and its name (missing
      counts as "") contains the lowercased query. */
  predicate MaterialMatches(subject: string, kw: string, it: Material) {
    it.subject == subject && Contains(Lower(it.name.GetOr([])), kw)
  }

  function MatchesQuery(subject: string, kw: string): Material -> bool {
    (it: Material) => MaterialMatches(subject, kw, it)
  }

  /** The hits: matching items in input order, at most `max` of them. Every
      kept item scores 1, so the score sort leaves the order alone. */
  function ContextHits(items: seq<Material>, subject: string, query: string, max: nat): (h: seq<Material>)
    ensures h <= Filter(items, MatchesQuery(subject, Lower(query)))
    ensures |h| <= max
    ensures |h| == if max <= Count(items, MatchesQuery(subject, Lower(query))) then max
                   else Count(items, MatchesQuery(subject, Lower(query)))
    ensures forall i :: 0 <= i < |h| ==> MaterialMatches(subject, Lower(query), h[i])
  {
    var hits := Take(Filter(items, MatchesQuery(subject, Lower(query))), max);
    assert forall i :: 0 <= i < |hits| ==> hits[i] == Filter(items, MatchesQuery(subject, Lower(query)))[i];
    hits
  }

  /** `【name】`, or `【Tài liệu】` for a nameless (or empty-named) item. */
  function CiteLabel(it: Material): (l: string)
    ensures |l| >= 2 && l[0] == '【' && l[|l| - 1] == '】'
  {
    var n := it.name.GetOr([]);
    "【" + (if n == [] then "Tài liệu" else n) + "】"
  }

  function CiteLabels(h: seq<Material>): (ls: seq<string>)
    ensures |ls| == |h| && forall i :: 0 <= i < |h| ==> ls[i] == CiteLabel(h[i])
  {
    if h == [] then [] else [CiteLabel(h[0])] + CiteLabels(h[1..])
  }

  /** `searchContext`: nothing stored gives ""; otherwise the hits' labels,
      one per line (an unparsable store has no items). */
  function SearchContext(m: Materials, subject: string, query: string, max: nat): (r: string)
    ensures m.NoMaterials? || m.UnparsableMaterials? ==> r == []
    ensures m.ParsedMaterials? ==> (r == [] <==> ContextHits(m.items, subject, query, max) == [])
  {
    var items := if m.ParsedMaterials? then m.items else [];
    var ls := CiteLabels(ContextHits(items, subject, query, max));
    assert ls != [] ==> |ls[0]| >= 2 && ls[0] <= Join(ls, "\n");
    Join(ls, "\n")
  }

  /** The context line by line: with one allowed hit it is the first
      match's label; each further allowed hit, while matches remain, adds a
      line break and the next match's label; past the number of matches a
      larger maximum changes nothing. */
  lemma SearchContextLines(items: seq<Material>, subject: string, query: string, max: nat)
    ensures var f := Filter(items, MatchesQuery(subject, Lower(query)));
      (f != [] ==> SearchContext(ParsedMaterials(items), subject, query, 1) == CiteLabel(f[0]))
      && (0 < max < |f| ==>
          SearchContext(ParsedMaterials(items), subject, query, max + 1)
          == SearchContext(ParsedMaterials(items), subject, query, max) + "\n" + CiteLabel(f[max]))
      && (|f| <= max ==>
          SearchContext(ParsedMaterials(items), subject, query, max + 1)
          == SearchContext(ParsedMaterials(items), subject, query, max))
  {
    var f := Filter(items, MatchesQuery(subject, Lower(query)));
    if f != [] {
      var h := ContextHits(items, subject, query, 1);
      assert h == [f[0]];
      assert CiteLabels(h) == [CiteLabel(f[0])];
    }
    if 0 < max < |f| {
      var h := ContextHits(items, subject, query, max);
      var h1 := ContextHits(items, subject, query, max + 1);
      assert h == f[..max];
      assert h1 == f[..max + 1];
      assert h1 == h + [f[max]];
      CiteLabelsAppend(h, f[max]);
      JoinAppend(CiteLabels(h), CiteLabel(f[max]), "\n");
    }
    if |f| <= max {
      assert ContextHits(items, subject, query, max) == f;
      assert ContextHits(items, subject, query, max + 1) == f;
    }
  }

  lemma CiteLabelsAppend(h: seq<Material>, x: Material)
    ensures CiteLabels(h + [x]) == CiteLabels(h) + [CiteLabel(x)]
  {
    var l := CiteLabels(h + [x]);
    assert forall i :: 0 <= i < |h| ==> l[i] == CiteLabel((h + [x])[i]) == CiteLabel(h[i]);
  }

  /** The hits are drawn from the items in order; no match, or a maximum of
      0, gives the empty context; a first hit opens the context. */
  lemma SearchContextSpec(items: seq<Material>, subject: string, query: string, max: nat)
    ensures IsSubsequence(ContextHits(items, subject, query, max), items)
    ensures max == 0 || (forall i :: 0 <= i < |items| ==> !MaterialMatches(subject, Lower(query), items[i])) ==>
      SearchContext(ParsedMaterials(items), subject, query, max) == []
    ensures ContextHits(items, subject, query, max) != [] ==>
      CiteLabel(ContextHits(items, subject, query, max)[0]) <= SearchContext(ParsedMaterials(items), subject, query, max)
  {
    var p := MatchesQuery(subject, Lower(query));
    var f := Filter(items, p);
    FilterIsSubsequence(items, p);
    PrefixOfSubsequence(Take(f, max), f, items);
    if forall i :: 0 <= i < |items| ==> !MaterialMatches(subject, Lower(query), items[i]) {
      FilterNone(items, p);
    }
  }

  lemma {:induction false} PrefixOfSubsequence<T>(a: seq<T>, b: seq<T>, c: seq<T>)
    requires a <= b && IsSubsequence(b, c)
    ensures IsSubsequence(a, c)
    decreases |c|
  {
    if a != [] {
      if IsSubsequence(b, c[1..]) {
        PrefixOfSubsequence(a, b, c[1..]);
      } else {
        assert b[0] == c[0] && IsSubsequence(b[1..], c[1..]);
        PrefixOfSubsequence(a[1..], b[1..], c[1..]);
      }
    }
  }

  // ===================== The chat panel =====================

  /** What the external answer service does with a question. */
  datatype Outcome = Answered(text: string) | Failed(message: string)

  /** The question and context handed to the service. */
  datatype Request = Request(subject: Subject, question: string, context: string)

  function ErrorText(message: string): string {
    "⚠️ Lỗi: " + message
  }

  /** The panel state: selected subject, shown messages, input box, the
      context switch, and the browser storage it reads and writes. */
  class Chat {
    var subject: Subject
    var messages: seq<Msg>
    var input: string
    var useContext: bool
    var store: map<Subject, Stored>
    var materials: Materials

    constructor (initialStore: map<Subject, Stored>, initialMaterials: Materials)
      ensures subject == Toan && messages == LoadHistory(initialStore, Toan) && input == []
      ensures useContext && store == initialStore && materials == initialMaterials
    {
      subject := Toan;
      messages := LoadHistory(initialStore, Toan);
      input := [];
      useContext := true;
      store := initialStore;
      materials := initialMaterials;
    }

    method SetInput(text: string)
      modifies this
      ensures input == text && messages == old(messages) && store == old(store) && subject == old(subject)
      ensures useContext == old(useContext) && materials == old(materials)
    {
      input := text;
    }

    /** The context checkbox. */
    method SetUseContext(on: bool)
      modifies this
      ensures useContext == on && input == old(input) && messages == old(messages) && store == old(store)
      ensures subject == old(subject) && materials == old(materials)
    {
      useContext := on;
    }

    /** A subject button. The shown history is reloaded by the effect on
        `subject`, which runs only when the subject actually changes. */
    method SwitchSubject(s: Subject)
      modifies this
      ensures subject == s
      ensures s == old(subject) ==> messages == old(messages)
      ensures s != old(subject) ==> messages == LoadHistory(store, s)
      ensures input == old(input) && store == old(store) && useContext == old(useContext) && materials == old(materials)
    {
      if s != subject {
        subject := s;
        messages := LoadHistory(store, s);
      }
    }

    /** `send`: a blank question is ignored. Otherwise the input is cleared,
        the question is appended and saved, and the service's answer, or an
        error message, is appended and saved after it. `reply` is what the
        service does with `request`. */
    method Send(q0: Option<string>, reply: Outcome) returns (request: Option<Request>)
      modifies this
      ensures Question(q0, old(input)) == [] ==>
        request.None? && messages == old(messages) && input == old(input) && store == old(store)
      ensures Question(q0, old(input)) != [] ==>
        request == Some(Request(old(subject), Question(q0, old(input)),
                                ContextFor(old(useContext), old(materials), old(subject), Question(q0, old(input)))))
      ensures Question(q0, old(input)) != [] ==>
        input == [] && messages == Exchange(old(messages), Question(q0, old(input)), reply)
      ensures Question(q0, old(input)) != [] ==> store == SaveHistory(old(store), old(subject), messages)
      ensures subject == old(subject) && useContext == old(useContext) && materials == old(materials)
    {
      request := Submit(Question(q0, input), reply);
    }

    /** The rest of `send` once the trimmed question q is known. */
    method Submit(q: string, reply: Outcome) returns (request: Option<Request>)
      modifies this
      ensures q == [] ==>
        request.None? && messages == old(messages) && input == old(input) && store == old(store)
      ensures q != [] ==>
        request == Some(Request(old(subject), q, ContextFor(old(useContext), old(materials), old(subject), q)))
      ensures q != [] ==> input == [] && messages == Exchange(old(messages), q, reply)
      ensures q != [] ==> store == SaveHistory(old(store), old(subject), messages)
      ensures subject == old(subject) && useContext == old(useContext) && materials == old(materials)
    {
      if q == [] {
        request := None;
      } else {
        var ctx := ContextFor(useContext, materials, subject, q);
        var after := Exchange(messages, q, reply);
        input := [];
        store := SaveHistory(store, subject, messages + [Msg(User, q)]);
        request := Some(Request(subject, q, ctx));
        messages := after;
        store := SaveHistory(store, subject, after);
      }
    }
  }

  /** The question `send` asks: the explicit one when given, else the input
      box, trimmed; it is empty exactly when that text is all white space. */
  function Question(q0: Option<string>, input: string): (q: string)
    ensures var text := q0.GetOr(input);
      q == [] <==> forall i :: 0 <= i < |text| ==> IsSpace(text[i])
    ensures q == [] || (!IsSpace(q[0]) && !IsSpace(q[|q| - 1]))
  {
    BlankIffAllSpace(q0.GetOr(input));
    Trim(q0.GetOr(input))
  }

  /** The context sent with a question: up to three cited materials of the
      subject when the context switch is on, none otherwise. */
  function ContextFor(useContext: bool, materials: Materials, subject: Subject, q: string): (ctx: string)
    ensures useContext ==> ctx == SearchContext(materials, SubjectSlug(subject), q, 3)
    ensures !useContext ==> ctx == []
  {
    if useContext then SearchContext(materials, SubjectSlug(subject), q, 3) else []
  }

  /** A completed exchange: the question, then the answer or the error
      message. */
  function Exchange(before: seq<Msg>, q: string, reply: Outcome): (after: seq<Msg>)
    ensures |after| == |before| + 2 && after[..|before|] == before
    ensures after[|before|] == Msg(User, q) && after[|before| + 1].role == Assistant
    ensures reply.Answered? ==> after[|before| + 1].content == reply.text
    ensures reply.Failed? ==> after[|before| + 1].content == ErrorText(reply.message)
  {
    before + [Msg(User, q), Msg(Assistant, if reply.Answered? then reply.text else ErrorText(reply.message))]
  }

  /** After a completed exchange the copy button copies the answer, when the
      answer is not empty. */
  lemma CopyAfterExchange(before: seq<Msg>, q: string, text: string)
    requires text != []
    ensures CopyLast(Exchange(before, q, Answered(text))) == Some(text)
  {
    var after := Exchange(before, q, Answered(text));
    assert after[|after| - 1] == Msg(Assistant, text);
  }

  /** The storage and material slug of a subject. */
  function SubjectSlug(s: Subject): (slug: string)
    ensures slug == "toan" || slug == "tieng-anh"
  {
    match s
    case Toan => "toan"
    case TiengAnh => "tieng-anh"
  }
}
