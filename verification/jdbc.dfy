/** The server-address part shared by the remote JDBC URLs of both builders:
    `//<host>:<port>/<database>`. */
module Jdbc {
  import opened Optional
  import opened JavaText

  /** The three values a remote URL carries. */
  datatype Address = Address(host: string, port: int, database: string)

  /** `"//" + host + ":" + port + "/" + database`, with the `int` port
      rendered by Java's string concatenation. */
  function RemoteAddress(host: string, port: Int32, database: string): (r: string)
    ensures StartsWith(r, "//")
    ensures EndsWith(r, database)
    ensures |r| == 4 + |host| + |IntToString(port)| + |database|
  {
    "//" + host + ":" + IntToString(port) + "/" + database
  }

  /** Position of the first occurrence of `c` in `s`. */
  function IndexOf(s: string, c: char): (r: Option<nat>)
    ensures r.Some? ==> r.value < |s| && s[r.value] == c && c !in s[..r.value]
    ensures r.None? <==> c !in s
  {
    if s == [] then None
    else if s[0] == c then Some(0)
    else match IndexOf(s[1..], c)
      case None => None
      case Some(i) => Some(i + 1)
  }

  /** Reads `//<host>:<port>/<database>` back, splitting at the first ':'
      after the slashes; `None` when the text does not have that shape. */
  function ParseRemoteAddress(s: string): Option<Address> {
    if !StartsWith(s, "//") then None
    else
      var rest := s[2..];
      match IndexOf(rest, ':')
      case None => None
      case Some(i) =>
        match ParsePortAndDatabase(rest[i + 1..])
        case None => None
        case Some(pd) => Some(Address(rest[..i], pd.0, pd.1))
  }

  /** Reads `<port>/<database>`, splitting at the first '/'. */
  function ParsePortAndDatabase(s: string): Option<(int, string)> {
    match IndexOf(s, '/')
    case None => None
    case Some(j) =>
      match ParseInt(s[..j])
      case None => None
      case Some(port) => Some((port, s[j + 1..]))
  }

  /** The first occurrence of a char that is absent from `a` is the one
      right after `a`. */
  lemma {:induction false} IndexOfAfter(a: string, c: char, b: string)
    requires c !in a
    ensures IndexOf(a + [c] + b, c) == Some(|a|)
    decreases |a|
  {
    if a != [] {
      assert (a + [c] + b)[1..] == a[1..] + [c] + b;
      IndexOfAfter(a[1..], c, b);
    }
  }

  /** The port text never contains '/', so the database starts right after
      the first '/'. */
  lemma PortAndDatabaseRoundTrip(port: Int32, database: string)
    ensures ParsePortAndDatabase(IntToString(port) + "/" + database) == Some((port as int, database))
  {
    var p := IntToString(port);
    assert '/' !in p by {
      forall k | 0 <= k < |p| ensures p[k] != '/' {
        assert IsDigit(p[k]) || p[k] == '-';
      }
    }
    IndexOfAfter(p, '/', database);
    assert (p + "/" + database)[..|p|] == p;
    assert (p + "/" + database)[|p| + 1..] == database;
    IntToStringRoundTrip(port);
  }

  /** A remote address determines its host, port and database, as long as
      the host has no ':' of its own. */
  lemma RemoteAddressRoundTrip(host: string, port: Int32, database: string)
    requires ':' !in host
    ensures ParseRemoteAddress(RemoteAddress(host, port, database)) == Some(Address(host, port, database))
  {
    var tail := IntToString(port) + "/" + database;
    var rest := RemoteAddress(host, port, database)[2..];
    assert rest == host + [':'] + tail;
    IndexOfAfter(host, ':', tail);
    assert rest[..|host|] == host;
    assert rest[|host| + 1..] == tail;
    PortAndDatabaseRoundTrip(port, database);
  }
}
