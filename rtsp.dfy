/** The stream address FrameReader opens: an rtsp URL (RFC 2326 section
    3.2) whose authority carries the camera's user name and password as
    userinfo (RFC 3986 section 3.2.1). */
module Rtsp {
  import opened Common
  import opened Decimal
  import opened Parsers

  /** main.cpp selects the main stream for every channel. */
  const UseSubtype1: bool := false

  const Scheme: string := "rtsp://"
  const Port: string := "554"
  const StreamPath: string := "/cam/realmonitor?channel="
  const SubtypeField: string := "&subtype="

  /** The substream is asked for only when USE_SUBTYPE1 is set and the
      channel is not the detection stream; USE_SUBTYPE1 is false. */
  function Subtype(channel: int): (s: int)
    ensures s == 0
  {
    if UseSubtype1 && channel != 0 then 1 else 0
  }

  /** constructRtspUrl for the reader of channel. */
  function ConstructRtspUrl(ip: string, username: string, password: string, channel: int): (url: string)
    ensures |url| > |Scheme| + |SubtypeField| && url[..|Scheme|] == Scheme
    ensures url[|url| - |SubtypeField| - 1..] == SubtypeField + "0"
  {
    var url := Scheme + username + ":" + password + "@" + ip + ":" + Port + StreamPath + IntToString(channel)
      + SubtypeField + IntToString(Subtype(channel));
    assert IntToString(Subtype(channel)) == "0";
    assert url[..|Scheme|] == Scheme;
    assert url[|url| - |SubtypeField| - 1..] == SubtypeField + "0";
    url
  }

  /** What a client reads out of an rtsp URL of this shape. */
  datatype Target = Target(username: string, password: string, host: string, port: int, channel: int,
                           subtype: int)

  datatype Authority = Authority(username: string, password: string, host: string, port: int)

  /** The userinfo: the user name ends at the first ':'. */
  function ReadUserinfo(userinfo: string): Option<(string, string)>
  {
    match Find(userinfo, ':')
    case None => None
    case Some(c) => Some((userinfo[..c], userinfo[c + 1..]))
  }

  /** Host and port: the port follows the last ':'. */
  function ReadHostPort(hostport: string): Option<(string, int)>
  {
    match FindLast(hostport, ':')
    case None => None
    case Some(p) =>
      match Strtol(hostport[p + 1..])
      case None => None
      case Some(port) => Some((hostport[..p], port))
  }

  /** The authority as RFC 3986 splits it: the userinfo ends at its first
      '@'. */
  function ReadAuthority(authority: string): Option<Authority>
  {
    match Find(authority, '@')
    case None => None
    case Some(a) =>
      match (ReadUserinfo(authority[..a]), ReadHostPort(authority[a + 1..]))
      case (Some((user, pass)), Some((host, port))) => Some(Authority(user, pass, host, port))
      case _ => None
  }

  /** The camera's path and query: the channel runs to the first '&', and
      the subtype field follows. */
  function ReadStream(path: string): Option<(int, int)>
  {
    if !(StreamPath <= path) then None
    else
      var query := path[|StreamPath|..];
      match Find(query, '&')
      case None => None
      case Some(e) =>
        var tail := query[e..];
        if !(SubtypeField <= tail) then None
        else
          match (Strtol(query[..e]), Strtol(tail[|SubtypeField|..]))
          case (Some(ch), Some(st)) => Some((ch, st))
          case _ => None
  }

  /** Reading the URL back: the scheme, then the authority up to the first
      '/', then the path. */
  function ReadUrl(url: string): (r: Option<Target>)
    ensures r.Some? ==> Scheme <= url
  {
    if !(Scheme <= url) then None
    else
      var rest := url[|Scheme|..];
      match Find(rest, '/')
      case None => None
      case Some(i) =>
        match (ReadAuthority(rest[..i]), ReadStream(rest[i..]))
        case (Some(au), Some((ch, st))) => Some(Target(au.username, au.password, au.host, au.port, ch, st))
        case _ => None
  }

  /** The URL text in the pieces ReadUrl cuts it into. */
  lemma UrlPieces(ip: string, username: string, password: string, channel: int)
    ensures ConstructRtspUrl(ip, username, password, channel)
      == Scheme + ((username + [':'] + password) + ['@'] + (ip + [':'] + Port))
         + (StreamPath + (IntToString(channel) + (SubtypeField + IntToString(0))))
  {
    assert Subtype(channel) == 0;
    Regroup(Scheme, username, ":", password, "@", ip, Port, StreamPath, IntToString(channel),
            SubtypeField, IntToString(0));
  }

  /** The twelve pieces of the URL, grouped as the reader cuts them. */
  lemma Regroup<T>(a: seq<T>, u: seq<T>, c: seq<T>, p: seq<T>, at: seq<T>, ip: seq<T>, port: seq<T>,
                   path: seq<T>, num: seq<T>, field: seq<T>, st: seq<T>)
    ensures a + u + c + p + at + ip + c + port + path + num + field + st
      == a + ((u + c + p) + at + (ip + c + port)) + (path + (num + (field + st)))
  {
    var authority := (u + c + p) + at + (ip + c + port);
    var tail := path + (num + (field + st));
    assert a + u + c + p + at + ip + c + port == a + authority;
    assert a + authority + path + num + field + st == a + authority + tail;
  }

  lemma StrtolOfPort()
    ensures Strtol(Port) == Some(554)
  {
    StrtolOfIntToString(554, []);
    assert IntToString(554) + [] == Port;
  }

  lemma ReadHostPortOf(ip: string)
    ensures ReadHostPort(ip + [':'] + Port) == Some((ip, 554))
  {
    CutAtLast(ip, ':', Port);
    StrtolOfPort();
  }

  lemma ReadAuthorityOf(ip: string, username: string, password: string)
    requires ':' !in username && '@' !in username && '@' !in password
    ensures ReadAuthority((username + [':'] + password) + ['@'] + (ip + [':'] + Port))
      == Some(Authority(username, password, ip, 554))
  {
    var userinfo := username + [':'] + password;
    CutAt(userinfo, '@', ip + [':'] + Port);
    CutAt(username, ':', password);
    ReadHostPortOf(ip);
  }

  /** The path cut at the channel's end: the channel number and the subtype
      number are read on their own. */
  lemma ReadStreamPieces(num: string, st: string)
    requires '&' !in num
    ensures ReadStream(StreamPath + (num + (SubtypeField + st)))
      == match (Strtol(num), Strtol(st))
         case (Some(c), Some(t)) => Some((c, t))
         case _ => None
  {
    var tail := SubtypeField + st;
    var query := num + tail;
    assert (StreamPath + query)[|StreamPath|..] == query;
    assert query == num + ['&'] + tail[1..];
    CutAt(num, '&', tail[1..]);
    assert query[..|num|] == num && query[|num|..] == tail;
    assert tail[|SubtypeField|..] == st;
  }

  lemma ReadStreamOf(channel: int)
    ensures ReadStream(StreamPath + (IntToString(channel) + (SubtypeField + IntToString(0)))) == Some((channel, 0))
  {
    var num := IntToString(channel);
    assert '&' !in num by {
      assert forall k :: 0 <= k < |num| ==> num[k] != '&';
    }
    StrtolOfPrinted(channel);
    StrtolOfPrinted(0);
    ReadStreamPieces(num, IntToString(0));
  }

  /** The URL cut at the first '/' after the scheme. */
  lemma ReadUrlPieces(authority: string, path: string)
    requires '/' !in authority && 0 < |path| && path[0] == '/'
    ensures ReadUrl(Scheme + authority + path)
      == match (ReadAuthority(authority), ReadStream(path))
         case (Some(au), Some((ch, st))) => Some(Target(au.username, au.password, au.host, au.port, ch, st))
         case _ => None
  {
    var url := Scheme + authority + path;
    assert url[|Scheme|..] == authority + path;
    assert authority + path == authority + ['/'] + path[1..];
    CutAt(authority, '/', path[1..]);
    assert ['/'] + path[1..] == path;
  }

  /** With credentials and address free of the characters that end their
      part of the authority, the URL is read back as the channel's main
      stream on port 554 of ip. */
  lemma ReadConstructedUrl(ip: string, username: string, password: string, channel: int)
    requires ':' !in username && '@' !in username && '/' !in username
    requires '@' !in password && '/' !in password && '/' !in ip
    ensures ReadUrl(ConstructRtspUrl(ip, username, password, channel))
      == Some(Target(username, password, ip, 554, channel, 0))
  {
    var authority := (username + [':'] + password) + ['@'] + (ip + [':'] + Port);
    var path := StreamPath + (IntToString(channel) + (SubtypeField + IntToString(0)));
    UrlPieces(ip, username, password, channel);
    assert '/' !in authority;
    assert path[0] == '/';
    ReadUrlPieces(authority, path);
    ReadAuthorityOf(ip, username, password);
    ReadStreamOf(channel);
  }
}
