/** The crawler's video record: nine nullable fields, one setter each, a dictionary view and
    a loader from a dictionary that insists on a video id. */
module VideoCommentRecord {
  import opened Base
  import G = JsGenerator

  /** The Python values a field holds: None, a bool, an int or a str. */
  datatype PyValue = PyNone | PyBool(b: bool) | PyInt(i: int) | PyStr(s: string)

  /** The nine fields, as a value. */
  datatype Fields = Fields(
    videoId: PyValue, title: PyValue, videoUrl: PyValue, isShort: PyValue, viewCount: PyValue,
    publishTime: PyValue, channelName: PyValue, channelUrl: PyValue, descText: PyValue)

  /** The nine field names. */
  datatype Name = VideoId | Title | VideoUrl | IsShort | ViewCount | PublishTime | ChannelName | ChannelUrl | DescText

  /** The dictionary key of each field; `set_<key>` exists exactly for these keys. */
  function Key(n: Name): string {
    match n
    case VideoId => "video_id"
    case Title => "title"
    case VideoUrl => "video_url"
    case IsShort => "is_short"
    case ViewCount => "view_count"
    case PublishTime => "publish_time"
    case ChannelName => "channel_name"
    case ChannelUrl => "channel_url"
    case DescText => "desc_text"
  }

  /** The `hasattr(obj, f"set_{key}")` test: the field a key names, if any. */
  function NameOf(key: string): (r: Option<Name>)
    ensures r.Some? ==> Key(r.value) == key
  {
    if key == "video_id" then Some(VideoId)
    else if key == "title" then Some(Title)
    else if key == "video_url" then Some(VideoUrl)
    else if key == "is_short" then Some(IsShort)
    else if key == "view_count" then Some(ViewCount)
    else if key == "publish_time" then Some(PublishTime)
    else if key == "channel_name" then Some(ChannelName)
    else if key == "channel_url" then Some(ChannelUrl)
    else if key == "desc_text" then Some(DescText)
    else None
  }

  /** Every field's key has a setter, and that setter is the field's own. */
  lemma NameOfKey(n: Name)
    ensures NameOf(Key(n)) == Some(n)
  {
  }

  lemma KeyInjective(m: Name, n: Name)
    requires Key(m) == Key(n)
    ensures m == n
  {
    NameOfKey(m);
    NameOfKey(n);
  }

  /** The dictionary of a record: each field under its key. */
  function Dict(f: Fields): map<string, PyValue> {
    map["video_id" := f.videoId, "title" := f.title, "video_url" := f.videoUrl, "is_short" := f.isShort,
        "view_count" := f.viewCount, "publish_time" := f.publishTime, "channel_name" := f.channelName,
        "channel_url" := f.channelUrl, "desc_text" := f.descText]
  }

  /** The dictionary's keys are exactly the keys that name a field ... */
  lemma DictKeys(f: Fields)
    ensures forall k :: k in Dict(f) <==> NameOf(k).Some?
  {
  }

  /** ... and each field's value is stored under its own key. */
  lemma DictValues(f: Fields)
    ensures forall n :: Key(n) in Dict(f) && Dict(f)[Key(n)] == Get(f, n)
  {
  }

  const Blank := Fields(PyNone, PyNone, PyNone, PyNone, PyNone, PyNone, PyNone, PyNone, PyNone)

  function Get(f: Fields, n: Name): PyValue {
    match n
    case VideoId => f.videoId
    case Title => f.title
    case VideoUrl => f.videoUrl
    case IsShort => f.isShort
    case ViewCount => f.viewCount
    case PublishTime => f.publishTime
    case ChannelName => f.channelName
    case ChannelUrl => f.channelUrl
    case DescText => f.descText
  }

  /** A setter: its own field becomes v and every other field keeps its value. */
  function Put(f: Fields, n: Name, v: PyValue): (g: Fields)
    ensures Get(g, n) == v
    ensures forall m :: m != n ==> Get(g, m) == Get(f, m)
  {
    match n
    case VideoId => f.(videoId := v)
    case Title => f.(title := v)
    case VideoUrl => f.(videoUrl := v)
    case IsShort => f.(isShort := v)
    case ViewCount => f.(viewCount := v)
    case PublishTime => f.(publishTime := v)
    case ChannelName => f.(channelName := v)
    case ChannelUrl => f.(channelUrl := v)
    case DescText => f.(descText := v)
  }

  /** Two records that agree on every field are equal. */
  lemma FieldsAgree(a: Fields, b: Fields)
    requires forall n :: Get(a, n) == Get(b, n)
    ensures a == b
  {
    assert Get(a, VideoId) == Get(b, VideoId) && Get(a, Title) == Get(b, Title);
    assert Get(a, VideoUrl) == Get(b, VideoUrl) && Get(a, IsShort) == Get(b, IsShort);
    assert Get(a, ViewCount) == Get(b, ViewCount) && Get(a, PublishTime) == Get(b, PublishTime);
    assert Get(a, ChannelName) == Get(b, ChannelName) && Get(a, ChannelUrl) == Get(b, ChannelUrl);
    assert Get(a, DescText) == Get(b, DescText);
  }

  /** What `from_dict` does with one entry: the setter the key names, or nothing. */
  function Offered(f: Fields, key: string, v: PyValue): (g: Fields)
    ensures NameOf(key).None? ==> g == f
    ensures NameOf(key).Some? ==> g == Put(f, NameOf(key).value, v)
  {
    match NameOf(key)
    case None => f
    case Some(n) => Put(f, n, v)
  }

  function Lookup(data: map<string, PyValue>, key: string): PyValue {
    if key in data then data[key] else PyNone
  }

  /** The fields of a blank record after every entry of `data` has been offered to its setter. */
  function Loaded(data: map<string, PyValue>): (f: Fields)
    ensures forall n :: Get(f, n) == Lookup(data, Key(n))
  {
    Fields(Lookup(data, "video_id"), Lookup(data, "title"), Lookup(data, "video_url"),
           Lookup(data, "is_short"), Lookup(data, "view_count"), Lookup(data, "publish_time"),
           Lookup(data, "channel_name"), Lookup(data, "channel_url"), Lookup(data, "desc_text"))
  }

  /** Offering one more entry is one more update of the loaded fields, whatever order the
      entries come in (each key reaches a different field). */
  lemma LoadedUpdate(data: map<string, PyValue>, key: string, v: PyValue)
    ensures Loaded(data[key := v]) == Offered(Loaded(data), key, v)
  {
    var a, b := Loaded(data[key := v]), Offered(Loaded(data), key, v);
    forall n
      ensures Get(a, n) == Get(b, n)
    {
      NameOfKey(n);
      if key != Key(n) {
        assert Lookup(data[key := v], Key(n)) == Lookup(data, Key(n));
        if NameOf(key).Some? {
          assert NameOf(key).value != n;
        }
      }
    }
    FieldsAgree(a, b);
  }

  /** Entries with a key that has no setter play no part. */
  lemma LoadedIgnoresOtherKeys(data: map<string, PyValue>, key: string, v: PyValue)
    requires NameOf(key).None?
    ensures Loaded(data[key := v]) == Loaded(data)
  {
    LoadedUpdate(data, key, v);
  }

  /** `str(value)` for the values a field holds. */
  function Show(v: PyValue): (s: string)
    ensures v.PyStr? ==> s == v.s
    ensures v.PyNone? ==> s == "None"
  {
    match v
    case PyNone => "None"
    case PyBool(b) => if b then "True" else "False"
    case PyInt(i) => G.Decimal(i)
    case PyStr(s) => s
  }

  const StrHead := "VideoInfo(video_id="

  class VideoComment {
    var videoId: PyValue
    var title: PyValue
    var videoUrl: PyValue
    var isShort: PyValue
    var viewCount: PyValue
    var publishTime: PyValue
    var channelName: PyValue
    var channelUrl: PyValue
    var descText: PyValue

    function Snapshot(): Fields
      reads this
    {
      Fields(videoId, title, videoUrl, isShort, viewCount, publishTime, channelName, channelUrl, descText)
    }

    /** Every field starts as None. */
    constructor()
      ensures Snapshot() == Blank
    {
      videoId, title, videoUrl, isShort, viewCount := PyNone, PyNone, PyNone, PyNone, PyNone;
      publishTime, channelName, channelUrl, descText := PyNone, PyNone, PyNone, PyNone;
    }

    method SetVideoId(v: PyValue)
      modifies this
      ensures Snapshot() == Put(old(Snapshot()), VideoId, v)
    {
      videoId := v;
    }

    method SetTitle(v: PyValue)
      modifies this
      ensures Snapshot() == Put(old(Snapshot()), Title, v)
    {
      title := v;
    }

    method SetVideoUrl(v: PyValue)
      modifies this
      ensures Snapshot() == Put(old(Snapshot()), VideoUrl, v)
    {
      videoUrl := v;
    }

    method SetIsShort(v: PyValue)
      modifies this
      ensures Snapshot() == Put(old(Snapshot()), IsShort, v)
    {
      isShort := v;
    }

    method SetViewCount(v: PyValue)
      modifies this
      ensures Snapshot() == Put(old(Snapshot()), ViewCount, v)
    {
      viewCount := v;
    }

    method SetPublishTime(v: PyValue)
      modifies this
      ensures Snapshot() == Put(old(Snapshot()), PublishTime, v)
    {
      publishTime := v;
    }

    method SetChannelName(v: PyValue)
      modifies this
      ensures Snapshot() == Put(old(Snapshot()), ChannelName, v)
    {
      channelName := v;
    }

    method SetChannelUrl(v: PyValue)
      modifies this
      ensures Snapshot() == Put(old(Snapshot()), ChannelUrl, v)
    {
      channelUrl := v;
    }

    method SetDescText(v: PyValue)
      modifies this
      ensures Snapshot() == Put(old(Snapshot()), DescText, v)
    {
      descText := v;
    }

    /** The `hasattr`/`getattr` dispatch of `from_dict`: the setter named after the key, if any. */
    method Offer(key: string, v: PyValue)
      modifies this
      ensures Snapshot() == Offered(old(Snapshot()), key, v)
    {
      if key == "video_id" { SetVideoId(v); }
      else if key == "title" { SetTitle(v); }
      else if key == "video_url" { SetVideoUrl(v); }
      else if key == "is_short" { SetIsShort(v); }
      else if key == "view_count" { SetViewCount(v); }
      else if key == "publish_time" { SetPublishTime(v); }
      else if key == "channel_name" { SetChannelName(v); }
      else if key == "channel_url" { SetChannelUrl(v); }
      else if key == "desc_text" { SetDescText(v); }
    }

    /** `to_dict`: exactly the nine keys, each mapped to its field. */
    function ToDict(): (m: map<string, PyValue>)
      reads this
      ensures forall k :: k in m <==> NameOf(k).Some?
      ensures forall n :: Key(n) in m && m[Key(n)] == Get(Snapshot(), n)
    {
      DictKeys(Snapshot());
      DictValues(Snapshot());
      Dict(Snapshot())
    }

    /** `__str__`: the video id between a fixed head and a closing parenthesis. */
    function Str(): (s: string)
      reads this
      ensures |s| == |StrHead| + |Show(videoId)| + 1
      ensures s[..|StrHead|] == StrHead && s[|StrHead|..|s| - 1] == Show(videoId) && s[|s| - 1] == ')'
    {
      StrHead + Show(videoId) + ")"
    }
  }

  function Restrict(data: map<string, PyValue>, keys: set<string>): map<string, PyValue> {
    map k | k in data && k in keys :: data[k]
  }

  /** `from_dict`: a blank record, each entry offered to its setter in turn, then a record
      without a video id is refused with ValueError. */
  method FromDict(data: map<string, PyValue>) returns (r: Result<VideoComment>)
    ensures r.Err? <==> Loaded(data).videoId == PyNone
    ensures r.Err? ==> r.error == ValueError
    ensures r.Ok? ==> fresh(r.value) && r.value.Snapshot() == Loaded(data)
  {
    var info := new VideoComment();
    var todo := data.Keys;
    assert Restrict(data, data.Keys - todo) == map[];
    while todo != {}
      invariant todo <= data.Keys
      invariant fresh(info)
      invariant info.Snapshot() == Loaded(Restrict(data, data.Keys - todo))
      decreases |todo|
    {
      var key :| key in todo;
      ghost var before := Restrict(data, data.Keys - todo);
      info.Offer(key, data[key]);
      todo := todo - {key};
      assert Restrict(data, data.Keys - todo) == before[key := data[key]];
      LoadedUpdate(before, key, data[key]);
    }
    assert Restrict(data, data.Keys) == data;
    if info.videoId == PyNone {
      return Err(ValueError);
    }
    r := Ok(info);
  }

  /** A record with a video id survives the trip through its dictionary unchanged. */
  lemma RoundTrip(c: VideoComment)
    ensures Loaded(c.ToDict()) == c.Snapshot()
    ensures Loaded(c.ToDict()).videoId == PyNone <==> c.videoId == PyNone
  {
  }

  /** The loader refuses a dictionary exactly when it has no video id or maps it to None. */
  lemma MissingIdRefused(data: map<string, PyValue>)
    ensures Loaded(data).videoId == PyNone <==> ("video_id" !in data || data["video_id"] == PyNone)
  {
  }

  /** A string id is shown as it is. */
  lemma StrShowsId(c: VideoComment, id: string)
    requires c.videoId == PyStr(id)
    ensures c.Str() == StrHead + id + ")"
  {
  }
}
