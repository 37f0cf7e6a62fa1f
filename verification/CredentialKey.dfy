/** The name a database credential is stored under in the OS keyring
    (src-tauri/src/db_credentials.rs). A text is its UTF-8 bytes, one `char` each. */
module CredentialKey {
  import opened Wrappers
  import opened Decimal

  datatype Location = Location(service: string, username: string)

  /** One opaque component behind its length. */
  function Prefixed(part: string): string {
    Render(|part|) + ":" + part
  }

  function EntryLocation(namespace: string, descriptor: string, generation: string): Location {
    Location(namespace, "v1:" + Prefixed(namespace) + ":" + Prefixed(descriptor) + ":" + Prefixed(generation))
  }

  /** Reads one component back, and what follows it. */
  function ReadPart(s: string): Option<(string, string)> {
    match ReadNumber(s)
    case None => None
    case Some((n, rest)) =>
      if |rest| >= n + 1 && rest[0] == ':' then Some((rest[1..n + 1], rest[n + 1..])) else None
  }

  /** Reads so many components, separated by colons, up to the end. */
  function ReadParts(s: string, count: nat): Option<seq<string>> {
    if count == 0 then None
    else
      match ReadPart(s)
      case None => None
      case Some((part, rest)) =>
        if count == 1 then if rest == "" then Some([part]) else None
        else if rest == "" || rest[0] != ':' then None
        else
          match ReadParts(rest[1..], count - 1)
          case None => None
          case Some(more) => Some([part] + more)
  }

  /** The three components of a stored name, without knowing any of them. */
  function ReadBack(username: string): Option<seq<string>> {
    if "v1:" <= username then ReadParts(username[3..], 3) else None
  }

  function Joined(parts: seq<string>): string
    requires parts != []
  {
    if |parts| == 1 then Prefixed(parts[0]) else Prefixed(parts[0]) + ":" + Joined(parts[1..])
  }

  lemma PartReadsBack(part: string, rest: string)
    ensures ReadPart(Prefixed(part) + rest) == Some((part, rest))
  {
    var tail := ":" + part + rest;
    assert Prefixed(part) + rest == Render(|part|) + tail;
    ReadNumberReads(|part|, tail);
    assert tail[1..|part| + 1] == part && tail[|part| + 1..] == rest;
  }

  lemma ReadsOneMore(s: string, part: string, rest: string, count: nat)
    requires ReadPart(s) == Some((part, ":" + rest)) && ReadParts(rest, count).Some?
    ensures ReadParts(s, count + 1) == Some([part] + ReadParts(rest, count).value)
  {
    assert (":" + rest)[1..] == rest;
  }

  lemma ReadsTheLast(part: string)
    ensures ReadParts(Prefixed(part), 1) == Some([part])
  {
    assert Prefixed(part) == Prefixed(part) + "";
    PartReadsBack(part, "");
  }

  lemma JoinedHead(parts: seq<string>)
    requires |parts| > 1
    ensures ReadPart(Joined(parts)) == Some((parts[0], ":" + Joined(parts[1..])))
  {
    assert Joined(parts) == Prefixed(parts[0]) + (":" + Joined(parts[1..]));
    PartReadsBack(parts[0], ":" + Joined(parts[1..]));
  }

  lemma {:induction false} PartsReadBack(parts: seq<string>)
    requires parts != []
    ensures ReadParts(Joined(parts), |parts|) == Some(parts)
  {
    if |parts| == 1 {
      ReadsTheLast(parts[0]);
      assert parts == [parts[0]];
    } else {
      JoinedHead(parts);
      PartsReadBack(parts[1..]);
      ReadsOneMore(Joined(parts), parts[0], Joined(parts[1..]), |parts| - 1);
      assert parts == [parts[0]] + parts[1..];
    }
  }

  /** Whatever separators or digits the components hold, the name can be read back. */
  lemma NameReadsBack(namespace: string, descriptor: string, generation: string)
    ensures ReadBack(EntryLocation(namespace, descriptor, generation).username)
            == Some([namespace, descriptor, generation])
    ensures EntryLocation(namespace, descriptor, generation).service == namespace
  {
    var parts := [namespace, descriptor, generation];
    var username := EntryLocation(namespace, descriptor, generation).username;
    assert parts[1..] == [descriptor, generation] && parts[1..][1..] == [generation];
    assert Joined(parts) == Prefixed(namespace) + ":" + Joined(parts[1..]);
    assert Joined(parts[1..]) == Prefixed(descriptor) + ":" + Joined([generation]);
    assert username == "v1:" + Joined(parts);
    assert username[3..] == Joined(parts);
    PartsReadBack(parts);
  }

  /** Two credentials share an entry only if they are the same credential. */
  lemma EntriesAreDistinct(namespace: string, d1: string, g1: string, d2: string, g2: string)
    ensures EntryLocation(namespace, d1, g1) == EntryLocation(namespace, d2, g2) <==> d1 == d2 && g1 == g2
  {
    NameReadsBack(namespace, d1, g1);
    NameReadsBack(namespace, d2, g2);
    if EntryLocation(namespace, d1, g1) == EntryLocation(namespace, d2, g2) {
      assert [namespace, d1, g1][1] == [namespace, d2, g2][1] && [namespace, d1, g1][2] == [namespace, d2, g2][2];
    }
  }
}
