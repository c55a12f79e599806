/** The static domain table `MODELS` and the two page routes that consult it:
    choosing a model for a domain, and opening the chat page for a (domain, model) pair. */
module Registry {
  import opened Wrappers

  /** Display metadata of one subject domain and its candidate model identifiers, in order. */
  datatype DomainInfo = DomainInfo(name: string, icon: string, models: seq<string>, description: string)

  const Healthcare := DomainInfo("Healthcare", "\U{1F3E5}",
    ["Jayasimma/bharatbuddy", "Jayasimma/Puzhavan"],
    "Medical advice, health information, and wellness guidance")
  const Agriculture := DomainInfo("Agriculture", "\U{1F33E}",
    ["Jayasimma/gennai", "Jayasimma/Puzhavan"],
    "Farming techniques, crop management, and agricultural practices")
  const Coding := DomainInfo("Coding", "\U{1F4BB}",
    ["Jayasimma/codemium_ai", "Jayasimma/creaton-ai"],
    "Programming help, code review, and software development")
  const Education := DomainInfo("Education", "\U{1F4DA}",
    ["Jayasimma/Buddyllama", "Jayasimma/creaton-ai"],
    "Learning resources, tutoring, and educational content")
  const NatureMedicine := DomainInfo("Natural Medicine", "\U{1F33F}",
    ["Jayasimma/Puzhavan", "Jayasimma/bharatbuddy"],
    "Herbal remedies, traditional medicine, and natural healing")
  const Tamil := DomainInfo("Tamil Language", "\U{1F1EE}\U{1F1F3}",
    ["conceptsintamil/tamil-llama-7b-instruct-v0.2", "Jayasimma/Buddyllama"],
    "Tamil language support, translation, and cultural information")

  /** The process-wide, read-only domain table. */
  const Domains: map<string, DomainInfo> := map[
    "healthcare" := Healthcare,
    "agriculture" := Agriculture,
    "coding" := Coding,
    "education" := Education,
    "nature_medicine" := NatureMedicine,
    "tamil" := Tamil
  ]

  /** Looks a domain key up; an unknown key is reported as None rather than failing. */
  function Resolve(key: string): (r: Option<DomainInfo>)
    ensures r.Some? <==> key in {"healthcare", "agriculture", "coding", "education", "nature_medicine", "tamil"}
    ensures r.Some? ==> |r.value.models| == 2 && r.value.models[0] != r.value.models[1]
  {
    if key in Domains then Some(Domains[key]) else None
  }

  /** What a page route answers: a redirect back to domain selection, or a rendered page. */
  datatype Page =
    | RedirectToDomains
    | SelectModelPage(domain: string, info: DomainInfo)
    | ChatPage(domain: string, modelName: string, info: DomainInfo)

  /** `select_model`: renders the model list of a known domain, redirects for any other key. */
  function SelectModel(domain: string): (p: Page)
    ensures p.RedirectToDomains? <==> Resolve(domain).None?
    ensures !p.RedirectToDomains? ==> p.SelectModelPage? && p.domain == domain && p.info == Resolve(domain).value
  {
    if domain !in Domains then RedirectToDomains else SelectModelPage(domain, Domains[domain])
  }

  /** How a model identifier is put into a single URL path segment: every '/' becomes '_'. */
  function EncodeModelName(m: string): (r: string)
    ensures |r| == |m| && '/' !in r
    ensures forall i :: 0 <= i < |m| && m[i] != '/' ==> r[i] == m[i]
  {
    seq(|m|, i requires 0 <= i < |m| => if m[i] == '/' then '_' else m[i])
  }

  /** `model_name.replace('_', '/')`, the decoding done by the chat route. */
  function DecodeModelName(s: string): (r: string)
    ensures |r| == |s| && '_' !in r
    ensures forall i :: 0 <= i < |s| && s[i] != '_' ==> r[i] == s[i]
    ensures forall i :: 0 <= i < |s| && s[i] == '_' ==> r[i] == '/'
  {
    seq(|s|, i requires 0 <= i < |s| => if s[i] == '_' then '/' else s[i])
  }

  /** Decoding undoes encoding for every model identifier without an underscore. */
  lemma DecodeEncode(m: string)
    requires '_' !in m
    ensures DecodeModelName(EncodeModelName(m)) == m
  {
  }

  /** Encoding undoes decoding for every segment without a slash. */
  lemma EncodeDecode(s: string)
    requires '/' !in s
    ensures EncodeModelName(DecodeModelName(s)) == s
  {
  }

  /** `chat`: redirects for an unknown domain, otherwise renders the chat page for the decoded
      model name. The model is not checked against the domain's list. */
  function ChatRoute(domain: string, segment: string): (p: Page)
    ensures p.RedirectToDomains? <==> Resolve(domain).None?
    ensures !p.RedirectToDomains? ==> p.ChatPage? && p.domain == domain && p.info == Resolve(domain).value
    ensures p.ChatPage? ==> '_' !in p.modelName && EncodeModelName(p.modelName) == EncodeModelName(segment)
  {
    if domain !in Domains then RedirectToDomains
    else
      var name := DecodeModelName(segment);
      assert EncodeModelName(name) == EncodeModelName(segment) by {
        forall i | 0 <= i < |segment|
          ensures EncodeModelName(name)[i] == EncodeModelName(segment)[i]
        {
          if segment[i] == '_' || segment[i] == '/' {
            assert name[i] == '/';
          }
        }
      }
      ChatPage(domain, name, Domains[domain])
  }

  /** The first candidate of `models` whose URL encoding is `segment`, if any. */
  function FirstEncodedAs(models: seq<string>, segment: string): (r: Option<string>)
    ensures r.Some? ==> r.value in models && EncodeModelName(r.value) == segment
    ensures r.None? ==> forall i :: 0 <= i < |models| ==> EncodeModelName(models[i]) != segment
  {
    if |models| == 0 then None
    else if EncodeModelName(models[0]) == segment then Some(models[0])
    else FirstEncodedAs(models[1..], segment)
  }

  /** Corrected decoding: the segment names the candidate of the domain that encodes to it;
      only a segment no candidate encodes to falls back to the plain '_' to '/' decoding. */
  function ResolveModelSegment(info: DomainInfo, segment: string): (r: string)
    ensures (exists i :: 0 <= i < |info.models| && EncodeModelName(info.models[i]) == segment) ==>
              r in info.models && EncodeModelName(r) == segment
    ensures (forall i :: 0 <= i < |info.models| ==> EncodeModelName(info.models[i]) != segment) ==>
              r == DecodeModelName(segment)
  {
    FirstEncodedAs(info.models, segment).GetOr(DecodeModelName(segment))
  }

  /** The chat route with the corrected decoding. */
  function ChatRouteIntended(domain: string, segment: string): (p: Page)
    ensures p.RedirectToDomains? <==> Resolve(domain).None?
    ensures !p.RedirectToDomains? ==> p.ChatPage? && p.domain == domain && p.info == Resolve(domain).value
    ensures p.ChatPage? ==> p.modelName == ResolveModelSegment(Domains[domain], segment)
  {
    if domain !in Domains then RedirectToDomains
    else ChatPage(domain, ResolveModelSegment(Domains[domain], segment), Domains[domain])
  }
}
