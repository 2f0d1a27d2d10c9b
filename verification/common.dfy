/** Vocabulary shared by every screen of the admin panel: optional values, the outcome of
    an awaited backend call, the two languages, bilingual text, link entries, multipart
    form fields, and the list operations the editors perform on copied arrays. */
module Common {

  datatype Option<+T> = None | Some(value: T) {
    /** `x || fallback` for a value that is either absent or present. */
    function GetOr(fallback: T): T {
      if Some? then value else fallback
    }
  }

  /** What one awaited backend call produced: its data, or a rejected promise. */
  datatype Outcome<+T> = Succeeded(data: T) | Failed

  datatype Lang = En | Ta {
    function Other(): Lang {
      if En? then Ta else En
    }
  }

  /** A `{en, ta}` object. A key can be missing: spreading an absent section and adding
      one key (`{ ...undefined, en: v }`) yields an object with that key only. */
  datatype MultiLangText = MultiLangText(en: Option<string>, ta: Option<string>) {
    function Get(lang: Lang): Option<string> {
      if lang.En? then en else ta
    }
  }

  /** `{ en: '', ta: '' }`, the text of every blank entry the editors append. */
  const BlankText := MultiLangText(Some(""), Some(""))

  /** `t?.[lang]` */
  function At(t: Option<MultiLangText>, lang: Lang): Option<string> {
    if t.Some? then t.value.Get(lang) else None
  }

  /** `t?.[lang] || ''`: what a bilingual input displays. */
  function Shown(t: Option<MultiLangText>, lang: Lang): string {
    At(t, lang).GetOr("")
  }

  /** `{ ...t, [lang]: v }`: the spread keeps the sibling language as it was (absent if it was absent). */
  function SetLang(t: Option<MultiLangText>, lang: Lang, v: string): (r: MultiLangText)
    ensures r.Get(lang) == Some(v)
    ensures r.Get(lang.Other()) == At(t, lang.Other())
  {
    var base := t.GetOr(MultiLangText(None, None));
    if lang.En? then base.(en := Some(v)) else base.(ta := Some(v))
  }

  /** `{ text: MultiLangText, href }`, an entry of the header and footer link lists. */
  datatype LinkValue = LinkValue(text: MultiLangText, href: string)

  const BlankLink := LinkValue(BlankText, "")

  datatype LinkField = TextField | HrefField

  /** One link input: `href` takes the value; `text` takes it in the given language;
      `text` without a language changes nothing. */
  function EditLink(link: LinkValue, field: LinkField, lang: Option<Lang>, v: string): (r: LinkValue)
    ensures field.HrefField? ==> r.href == v && r.text == link.text
    ensures field.TextField? && lang.Some? ==>
      r.href == link.href && r.text.Get(lang.value) == Some(v)
      && r.text.Get(lang.value.Other()) == link.text.Get(lang.value.Other())
    ensures field.TextField? && lang.None? ==> r == link
  {
    match field
    case HrefField => link.(href := v)
    case TextField => if lang.Some? then link.(text := SetLang(Some(link.text), lang.value, v)) else link
  }

  /** `list.filter((_, j) => j !== i)`: drops position i; an index outside the list drops nothing. */
  function WithoutIndex<T>(s: seq<T>, i: int): (r: seq<T>)
    ensures 0 <= i < |s| ==> r == s[..i] + s[i + 1..]
    ensures !(0 <= i < |s|) ==> r == s
    decreases |s|
  {
    if s == [] then []
    else
      var rest := WithoutIndex(s[1..], i - 1);
      assert 0 < i <= |s| - 1 ==> s[1..][..i - 1] + s[1..][i..] == s[1..i] + s[i + 1..];
      assert 0 < i <= |s| ==> s[..i] == [s[0]] + s[1..i];
      assert s == [s[0]] + s[1..];
      (if i == 0 then [] else [s[0]]) + rest
  }

  /** A copy of `s` after `copy.splice(i, 1)`. JavaScript counts a negative start from the end,
      so for non-negative indices this agrees with the filter above and for negative ones it
      drops a position counted from the end. */
  function SpliceOne<T>(s: seq<T>, i: int): (r: seq<T>)
    ensures 0 <= i ==> r == WithoutIndex(s, i)
    ensures -|s| <= i < 0 ==> r == WithoutIndex(s, |s| + i)
  {
    var start := if i < 0 then (if |s| + i < 0 then 0 else |s| + i) else (if i < |s| then i else |s|);
    if start < |s| then s[..start] + s[start + 1..] else s
  }

  /** The character of one decimal digit. */
  function DigitChar(d: nat): (c: char)
    requires d < 10
    ensures '0' <= c <= '9' && c as int - '0' as int == d
  {
    "0123456789"[d]
  }

  /** `n.toString()` for a non-negative integer. */
  function Decimal(n: nat): (r: string)
    ensures |r| > 0
    ensures forall k :: 0 <= k < |r| ==> '0' <= r[k] <= '9'
    ensures n < 10 <==> |r| == 1
  {
    if n < 10 then [DigitChar(n)] else Decimal(n / 10) + [DigitChar(n % 10)]
  }

  /** The number a string of decimal digits denotes, read left to right. */
  function DecimalValue(s: string): nat
  {
    if |s| == 0 then 0
    else
      var c := s[|s| - 1];
      DecimalValue(s[..|s| - 1]) * 10 + (if '0' <= c <= '9' then c as int - '0' as int else 0)
  }

  /** `n.toString()` denotes n, and has no leading zero unless n is 0. */
  lemma {:induction false} DecimalDenotes(n: nat)
    ensures DecimalValue(Decimal(n)) == n
    ensures Decimal(n)[0] != '0' || n == 0
  {
    if n >= 10 {
      DecimalDenotes(n / 10);
      var r := Decimal(n);
      assert r[..|r| - 1] == Decimal(n / 10);
      assert r[0] == Decimal(n / 10)[0];
    }
  }

  /** A browser `File` object, identified by its handle. */
  datatype FileRef = FileRef(handle: nat)

  /** A multipart value: `FormData.append` keeps a `File` as a blob and turns anything else into a string. */
  datatype FormValue = Str(s: string) | Blob(file: FileRef)

  datatype FormField = FormField(name: string, value: FormValue)

  /** `e.target.files ? e.target.files[0] : null`: the first picked file; an empty list gives
      `undefined`, which the forms treat like no file. */
  function FirstFile(files: Option<seq<FileRef>>): (r: Option<FileRef>)
    ensures r.Some? <==> files.Some? && |files.value| > 0
    ensures r.Some? ==> r.value == files.value[0]
  {
    if files.Some? && |files.value| > 0 then Some(files.value[0]) else None
  }

  function Names(form: seq<FormField>): (r: seq<string>)
  {
    seq(|form|, k requires 0 <= k < |form| => form[k].name)
  }

  /** `FormData.get(name)`: the value of the first field with that name, as the backend reads it. */
  function Get(form: seq<FormField>, name: string): (r: Option<FormValue>)
    ensures r.Some? ==> exists k :: 0 <= k < |form| && form[k] == FormField(name, r.value)
  {
    if |form| == 0 then None
    else if form[0].name == name then Some(form[0].value)
    else
      var r := Get(form[1..], name);
      assert r.Some? ==> exists k :: 1 <= k < |form| && form[k] == FormField(name, r.value) by {
        if r.Some? {
          var k :| 0 <= k < |form[1..]| && form[1..][k] == FormField(name, r.value);
          assert form[k + 1] == form[1..][k];
        }
      }
      r
  }

  /** A field whose name no earlier field has is what the backend reads under that name. */
  lemma {:induction false} GetFirst(form: seq<FormField>, k: int)
    requires 0 <= k < |form|
    requires forall j :: 0 <= j < k ==> form[j].name != form[k].name
    ensures Get(form, form[k].name) == Some(form[k].value)
  {
    if k > 0 {
      assert form[1..][k - 1] == form[k];
      GetFirst(form[1..], k - 1);
    }
  }

  /** A name no field has reads as absent: by Get's contract a value read back is a field of the form. */
  lemma GetMissing(form: seq<FormField>, name: string)
    requires forall j :: 0 <= j < |form| ==> form[j].name != name
    ensures Get(form, name) == None
  {
  }

  /** One key of a JSON object literal. */
  datatype Member = Member(key: string, value: string)

  function Keys(obj: seq<Member>): seq<string>
  {
    seq(|obj|, k requires 0 <= k < |obj| => obj[k].key)
  }

  /** `obj[key]` for a JSON object: the value of the first member with that key. */
  function ValueOf(obj: seq<Member>, key: string): (r: Option<string>)
    ensures r.Some? ==> exists k :: 0 <= k < |obj| && obj[k] == Member(key, r.value)
  {
    if |obj| == 0 then None
    else if obj[0].key == key then Some(obj[0].value)
    else
      var r := ValueOf(obj[1..], key);
      assert r.Some? ==> exists k :: 1 <= k < |obj| && obj[k] == Member(key, r.value) by {
        if r.Some? {
          var k :| 0 <= k < |obj[1..]| && obj[1..][k] == Member(key, r.value);
          assert obj[k + 1] == obj[1..][k];
        }
      }
      r
  }

  /** A member whose key no earlier member has is what is read under that key. */
  lemma {:induction false} ValueOfFirst(obj: seq<Member>, k: int)
    requires 0 <= k < |obj|
    requires forall j :: 0 <= j < k ==> obj[j].key != obj[k].key
    ensures ValueOf(obj, obj[k].key) == Some(obj[k].value)
  {
    if k > 0 {
      assert obj[1..][k - 1] == obj[k];
      ValueOfFirst(obj[1..], k - 1);
    }
  }

  /** A key no member has reads as absent: by ValueOf's contract a value read is a member of the object. */
  lemma ValueOfMissing(obj: seq<Member>, key: string)
    requires forall j :: 0 <= j < |obj| ==> obj[j].key != key
    ensures ValueOf(obj, key) == None
  {
  }
}
