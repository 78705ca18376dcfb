/**
 * What `POST /api/ai` does before and around the language-model call: the
 * message check, the system prompt with its defaults, the keyword test that
 * decides on a web search, the search query, and the web context built from
 * the first three search results. The search service and the model are
 * inputs: their answers are passed in.
 */
module AiRoute {
  import opened Options

  const MessageRequiredMsg := "Message is required"
  const BusyMsg := "Maaf, layanan asisten sedang sibuk. Silakan coba lagi nanti atau hubungi Pak RT langsung di WhatsApp."
  const DefaultRtName := "Ketua RT 03"
  const DefaultRtWhatsapp := "628123456789"
  const QueryPrefix := "layanan administrasi kependudukan Indonesia "
  const ContextHeader := "\n\nINFORMASI DARI INTERNET:\n"

  /** The words whose presence in the lower-cased message triggers a web search. */
  const Keywords: seq<string> := [
    "syarat", "persyaratan", "prosedur", "cara", "bagaimana", "aturan",
    "terbaru", "update", "terkini", "informasi", "berita",
    "pemerintah", "disdukcapil", "kependudukan", "ktp", "kk",
    "biaya", "tarif", "harga", "waktu", "lama",
    "online", "digital", "website", "aplikasi",
    "hukum", "undang", "peraturan", "kebijakan"
  ]

  // ---------------------------------------------------------------- lower case

  /** ASCII lower-casing of one character. */
  function LowerChar(c: char): char {
    if 'A' <= c <= 'Z' then (c as int + 32) as char else c
  }

  /** `toLowerCase`, on ASCII letters only. */
  function ToLower(s: string): (r: string)
    ensures |r| == |s|
    ensures forall i :: 0 <= i < |s| ==> r[i] == LowerChar(s[i])
  {
    if s == [] then [] else [LowerChar(s[0])] + ToLower(s[1..])
  }

  lemma ToLowerIdempotent(s: string)
    ensures ToLower(ToLower(s)) == ToLower(s)
  {
  }

  lemma ToLowerAppend(a: string, b: string)
    ensures ToLower(a + b) == ToLower(a) + ToLower(b)
  {
  }

  // ---------------------------------------------------------------- substrings

  /** `k` occurs in `s` starting at position `i`. */
  predicate OccursAt(s: string, k: string, i: nat) {
    i + |k| <= |s| && s[i..i + |k|] == k
  }

  ghost predicate Includes(s: string, k: string) {
    exists i: nat :: OccursAt(s, k, i)
  }

  lemma IncludesTail(s: string, k: string)
    requires |s| > 0 && !OccursAt(s, k, 0)
    ensures Includes(s, k) <==> Includes(s[1..], k)
  {
    if Includes(s, k) {
      var i: nat :| OccursAt(s, k, i);
      assert i > 0;
      assert s[1..][i - 1..i - 1 + |k|] == s[i..i + |k|];
      assert OccursAt(s[1..], k, i - 1);
    }
    if Includes(s[1..], k) {
      var i: nat :| OccursAt(s[1..], k, i);
      assert s[i + 1..i + 1 + |k|] == s[1..][i..i + |k|];
      assert OccursAt(s, k, i + 1);
    }
  }

  /** `s.includes(k)`. */
  function IsSubstring(k: string, s: string): (r: bool)
    ensures r <==> Includes(s, k)
    decreases |s|
  {
    if OccursAt(s, k, 0) then true
    else if |s| == 0 then
      assert forall i: nat :: !OccursAt(s, k, i);
      false
    else
      IncludesTail(s, k);
      IsSubstring(k, s[1..])
  }

  /** `ks.some(k => s.includes(k))`. */
  function AnyIncluded(s: string, ks: seq<string>): (r: bool)
    ensures r <==> exists j :: 0 <= j < |ks| && Includes(s, ks[j])
  {
    if ks == [] then false
    else
      var rest := AnyIncluded(s, ks[1..]);
      assert forall j :: 1 <= j < |ks| ==> ks[j] == ks[1..][j - 1];
      IsSubstring(ks[0], s) || rest
  }

  /** `shouldSearchWeb`: some keyword is a substring of the lower-cased message. */
  function ShouldSearchWeb(message: string): (r: bool)
    ensures r <==> exists j :: 0 <= j < |Keywords| && Includes(ToLower(message), Keywords[j])
  {
    AnyIncluded(ToLower(message), Keywords)
  }

  /** The decision looks only at the lower-cased message. */
  lemma SearchIgnoresCase(a: string, b: string)
    requires ToLower(a) == ToLower(b)
    ensures ShouldSearchWeb(a) == ShouldSearchWeb(b)
  {
  }

  /** Lower-casing the message first changes nothing. */
  lemma SearchOfLowered(message: string)
    ensures ShouldSearchWeb(ToLower(message)) == ShouldSearchWeb(message)
  {
    ToLowerIdempotent(message);
  }

  lemma IncludesExtend(s: string, k: string, pre: string, post: string)
    requires Includes(s, k)
    ensures Includes(pre + s + post, k)
  {
    var i: nat :| OccursAt(s, k, i);
    var t := pre + s + post;
    assert t[|pre| + i..|pre| + i + |k|] == s[i..i + |k|];
    assert OccursAt(t, k, |pre| + i);
  }

  /** Text added before or after a message that triggers a search never stops it triggering. */
  lemma SearchSurvivesExtension(message: string, pre: string, post: string)
    requires ShouldSearchWeb(message)
    ensures ShouldSearchWeb(pre + message + post)
  {
    var j :| 0 <= j < |Keywords| && Includes(ToLower(message), Keywords[j]);
    ToLowerAppend(pre + message, post);
    ToLowerAppend(pre, message);
    IncludesExtend(ToLower(message), Keywords[j], ToLower(pre), ToLower(post));
  }

  // ---------------------------------------------------------------- query and prompt

  /** `getSearchQuery`: the fixed prefix, then the message unchanged. */
  function SearchQuery(message: string): (q: string)
    ensures |q| == |QueryPrefix| + |message|
    ensures q[..|QueryPrefix|] == QueryPrefix && q[|QueryPrefix|..] == message
  {
    QueryPrefix + message
  }

  /** Different messages give different queries. */
  lemma SearchQueryInjective(a: string, b: string)
    requires SearchQuery(a) == SearchQuery(b)
    ensures a == b
  {
  }

  const PromptIntro := @"Kamu adalah asisten digital SmartWarga RT yang sangat membantu dan ramah. Kamu bekerja untuk RT 03 Kp. Jati.

INFORMASI RT:
- Nama RT: RT 03 Kp. Jati
"

  const PromptRest := @"
KEMAMPUAN KAMU:
1. Kamu bisa mencari informasi dari internet untuk menjawab pertanyaan tentang layanan publik, administrasi kependudukan, dan layanan warga
2. Kamu bisa memberikan informasi tentang prosedur pembuatan dokumen kependudukan
3. Kamu bisa membantu warga memahami persyaratan dan alur layanan administrasi

LAYANAN YANG TERSEDIA DI SMARTWARGA:
1. Surat Keterangan Domisili
2. Surat Keterangan Pindah
3. Surat Izin Nikah (N1-N4)
4. Surat Izin Keramaian
5. Surat Kematian
6. SKTM (Surat Keterangan Tidak Mampu)

PANDUAN JAWABAN:
- Jawab dengan bahasa Indonesia yang baik dan ramah
- Berikan informasi yang akurat dan up-to-date
- Jika tidak tahu pasti, katakan jujur dan sarankan untuk menghubungi Pak RT
- Untuk pertanyaan tentang layanan publik atau administrasi, gunakan pencarian web untuk mendapatkan informasi terkini
- Arahkan warga untuk menggunakan fitur ""AJUKAN SURAT"" di aplikasi untuk pengajuan surat
- Berikan nomor WhatsApp RT jika warga butuh bantuan lebih lanjut

CONTOH JAWABAN:
- Untuk pertanyaan tentang syarat dokumen: jelaskan persyaratan dan prosedur
- Untuk pertanyaan tentang jam layanan: jelaskan jam operasional
- Untuk pertanyaan umum: berikan jawaban informatif dan membantu"

  function KetuaLine(rtName: string): string {
    "- Ketua RT: " + Or(rtName, DefaultRtName) + "\n"
  }

  function WhatsappLine(rtWhatsapp: string): string {
    "- WhatsApp RT: " + Or(rtWhatsapp, DefaultRtWhatsapp) + "\n"
  }

  /** Four strings laid end to end, each found at its own offset. */
  lemma FourParts(a: string, b: string, c: string, d: string)
    ensures var s := a + b + c + d;
      && |s| == |a| + |b| + |c| + |d|
      && s[..|a|] == a
      && s[|a|..|a| + |b|] == b
      && s[|a| + |b|..|a| + |b| + |c|] == c
      && s[|a| + |b| + |c|..] == d
  {
    var s := a + b + c + d;
    assert s[..|a|] == a;
    assert s[|a|..|a| + |b|] == b;
    assert s[|a| + |b|..|a| + |b| + |c|] == c;
    assert s[|a| + |b| + |c|..] == d;
  }

  /**
   * `getSystemPrompt`: the fixed introduction, the chairman line, the WhatsApp
   * line and the fixed rest, in that order.
   */
  function SystemPrompt(rtName: string, rtWhatsapp: string): (p: string)
    ensures var i, k, w := |PromptIntro|, |KetuaLine(rtName)|, |WhatsappLine(rtWhatsapp)|;
      && |p| == i + k + w + |PromptRest|
      && p[..i] == PromptIntro
      && p[i..i + k] == KetuaLine(rtName)
      && p[i + k..i + k + w] == WhatsappLine(rtWhatsapp)
      && p[i + k + w..] == PromptRest
  {
    FourParts(PromptIntro, KetuaLine(rtName), WhatsappLine(rtWhatsapp), PromptRest);
    PromptIntro + KetuaLine(rtName) + WhatsappLine(rtWhatsapp) + PromptRest
  }

  lemma IncludesMiddle(a: string, b: string, c: string)
    ensures Includes(a + b + c, b)
  {
    assert OccursAt(b, b, 0);
    IncludesExtend(b, b, a, c);
  }

  /** The prompt names the given chairman and number, or the defaults when they are empty. */
  lemma PromptNamesContacts(rtName: string, rtWhatsapp: string)
    ensures Includes(SystemPrompt(rtName, rtWhatsapp), "- Ketua RT: " + (if rtName == "" then DefaultRtName else rtName) + "\n")
    ensures Includes(SystemPrompt(rtName, rtWhatsapp), "- WhatsApp RT: " + (if rtWhatsapp == "" then DefaultRtWhatsapp else rtWhatsapp) + "\n")
  {
    var i, k, w, r := PromptIntro, KetuaLine(rtName), WhatsappLine(rtWhatsapp), PromptRest;
    IncludesMiddle(i, k, w + r);
    IncludesMiddle(i + k, w, r);
    assert i + k + (w + r) == i + k + w + r;
  }

  /** The route passes values already defaulted; defaulting again changes nothing. */
  lemma DefaultsAppliedOnce(rtName: string, rtWhatsapp: string)
    ensures SystemPrompt(Or(rtName, DefaultRtName), Or(rtWhatsapp, DefaultRtWhatsapp)) == SystemPrompt(rtName, rtWhatsapp)
  {
  }

  // ---------------------------------------------------------------- web context

  datatype SearchResult = SearchResult(name: string, snippet: string, url: string)

  /** What the search call yields: it throws, it answers with something other than an array, or a list. */
  datatype SearchOutcome = SearchFailed | NotAList | Results(items: seq<SearchResult>)

  /** One result as a bullet: the title, a colon, the snippet; the url is not used. */
  function ResultLine(r: SearchResult): (l: string)
    ensures |l| == 4 + |r.name| + |r.snippet|
    ensures l[..2] == "- " && l[2..2 + |r.name|] == r.name
    ensures l[2 + |r.name|..4 + |r.name|] == ": " && l[4 + |r.name|..] == r.snippet
  {
    FourParts("- ", r.name, ": ", r.snippet);
    "- " + r.name + ": " + r.snippet
  }

  /** `lines.join(sep)`. */
  function Join(lines: seq<string>, sep: string): string {
    if |lines| == 0 then ""
    else if |lines| == 1 then lines[0]
    else lines[0] + sep + Join(lines[1..], sep)
  }

  /** A join starts with the first line, ends with the last, and is empty for no lines. */
  lemma {:induction false} JoinEnds(lines: seq<string>, sep: string)
    ensures |lines| == 0 ==> Join(lines, sep) == ""
    ensures |lines| > 0 ==> var r := Join(lines, sep);
      |r| >= |lines[0]| && r[..|lines[0]|] == lines[0]
    ensures |lines| > 0 ==> var r, last := Join(lines, sep), lines[|lines| - 1];
      |r| >= |last| && r[|r| - |last|..] == last
  {
    if |lines| > 1 {
      JoinEnds(lines[1..], sep);
      var rest := Join(lines[1..], sep);
      var r := lines[0] + sep + rest;
      assert r[..|lines[0]|] == lines[0];
      assert lines[1..][|lines| - 2] == lines[|lines| - 1];
      assert r[|r| - |rest|..] == rest;
    }
  }


  lemma JoinOfFew(lines: seq<string>, sep: string)
    ensures |lines| == 1 ==> Join(lines, sep) == lines[0]
    ensures |lines| == 2 ==> Join(lines, sep) == lines[0] + sep + lines[1]
    ensures |lines| == 3 ==> Join(lines, sep) == lines[0] + sep + lines[1] + sep + lines[2]
  {
    if |lines| == 2 {
      assert lines[1..] == [lines[1]];
    } else if |lines| == 3 {
      assert lines[1..][1..] == [lines[2]];
      assert Join(lines[1..], sep) == lines[1] + sep + lines[2];
      assert Join(lines, sep) == lines[0] + sep + (lines[1] + sep + lines[2]);
    }
  }

  /** `results.slice(0, 3).map(line)`. */
  function ContextLines(results: seq<SearchResult>): (ls: seq<string>)
    ensures |ls| == (if |results| < 3 then |results| else 3)
    ensures forall i :: 0 <= i < |ls| ==> ls[i] == ResultLine(results[i])
  {
    var firsts := if |results| <= 3 then results else results[..3];
    seq(|firsts|, i requires 0 <= i < |firsts| => ResultLine(firsts[i]))
  }

  /** The context appended to the system prompt when a search was made. */
  function WebContext(search: SearchOutcome): (c: string)
    ensures c == "" <==> !(search.Results? && |search.items| > 0)
    ensures c != "" ==> |c| >= |ContextHeader| && c[..|ContextHeader|] == ContextHeader
  {
    if search.Results? && |search.items| > 0 then ContextHeader + Join(ContextLines(search.items), "\n")
    else ""
  }

  /** The context spelled out: the header, then one line per result for the first three, newline-separated. */
  lemma WebContextShape(results: seq<SearchResult>)
    requires |results| > 0
    ensures |results| == 1 ==> WebContext(Results(results)) == ContextHeader + ResultLine(results[0])
    ensures |results| == 2 ==>
      WebContext(Results(results)) == ContextHeader + ResultLine(results[0]) + "\n" + ResultLine(results[1])
    ensures |results| >= 3 ==>
      WebContext(Results(results)) ==
        ContextHeader + ResultLine(results[0]) + "\n" + ResultLine(results[1]) + "\n" + ResultLine(results[2])
  {
    var ls := ContextLines(results);
    JoinOfFew(ls, "\n");
    if |results| >= 3 {
      assert ls[0] + "\n" + ls[1] + "\n" + ls[2] ==
        ResultLine(results[0]) + "\n" + ResultLine(results[1]) + "\n" + ResultLine(results[2]);
    }
  }

  /** Results after the third never reach the prompt. */
  lemma OnlyFirstThreeResults(results: seq<SearchResult>, more: seq<SearchResult>)
    requires |results| >= 3
    ensures WebContext(Results(results + more)) == WebContext(Results(results))
  {
    WebContextShape(results);
    WebContextShape(results + more);
  }

  /** The urls of the results never reach the prompt. */
  lemma UrlsIgnored(a: seq<SearchResult>, b: seq<SearchResult>)
    requires |a| == |b|
    requires forall i :: 0 <= i < |a| ==> a[i].name == b[i].name && a[i].snippet == b[i].snippet
    ensures WebContext(Results(a)) == WebContext(Results(b))
  {
    assert ContextLines(a) == ContextLines(b);
  }

  // ---------------------------------------------------------------- the handler

  /** The request body. An absent field is the empty string. */
  datatype ChatRequest = ChatRequest(message: string, rtName: string, rtWhatsapp: string)

  datatype ChatMessage = ChatMessage(role: string, content: string)

  /**
   * The reply, together with what the handler asked of the two services:
   * the query it searched for and the messages it sent the model (None when
   * it made no such call).
   */
  datatype ChatReply = ChatReply(
    status: int, success: bool, text: string, error: string,
    searchQuery: Option<string>, completionMessages: Option<seq<ChatMessage>>)

  /**
   * `POST /api/ai`. `search` is what the search service answers for the
   * query, `completion` the content of the model's first choice (None when it
   * gives none).
   */
  method HandleChat(req: ChatRequest, search: SearchOutcome, completion: Option<string>) returns (reply: ChatReply)
    ensures req.message == "" ==> reply == ChatReply(400, false, "", MessageRequiredMsg, None, None)
    ensures req.message != "" ==>
      && reply.searchQuery == (if ShouldSearchWeb(req.message) then Some(SearchQuery(req.message)) else None)
      && reply.completionMessages == Some([
           ChatMessage("assistant",
             SystemPrompt(req.rtName, req.rtWhatsapp) + (if ShouldSearchWeb(req.message) then WebContext(search) else "")),
           ChatMessage("user", req.message)])
      && (reply.success <==> completion.Some? && completion.value != "")
      && (reply.success ==> reply.status == 200 && reply.text == completion.value)
      && (!reply.success ==> reply.status == 500 && reply.error == BusyMsg)
  {
    if req.message == "" {
      return ChatReply(400, false, "", MessageRequiredMsg, None, None);
    }
    var systemPrompt := SystemPrompt(Or(req.rtName, DefaultRtName), Or(req.rtWhatsapp, DefaultRtWhatsapp));
    var needsWebSearch := ShouldSearchWeb(req.message);
    var webContext := "";
    var query: Option<string> := None;
    if needsWebSearch {
      query := Some(SearchQuery(req.message));
      if search.Results? && |search.items| > 0 {
        webContext := ContextHeader + Join(ContextLines(search.items), "\n");
      }
    }
    var messages := [ChatMessage("assistant", systemPrompt + webContext), ChatMessage("user", req.message)];
    if completion.None? || completion.value == "" {
      reply := ChatReply(500, false, "", BusyMsg, query, Some(messages));
    } else {
      reply := ChatReply(200, true, completion.value, "", query, Some(messages));
    }
  }
}
