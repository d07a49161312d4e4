/**
 The announcement by which a client makes itself known: written by setClientInfo() in
 appFiles/_appClient.cpp and read by the constructor of utils::client in appFiles/utils.cpp.
 `isIP4` stands for inet_pton().
 */
module Announcement {
  import opened Streams

  function WordLength(s: string): (n: nat)
    ensures n <= |s| && NoSpaces(s[..n])
    ensures n < |s| ==> IsSpace(s[n])
    ensures s != "" && !IsSpace(s[0]) ==> n > 0
  {
    if s == "" || IsSpace(s[0]) then 0
    else
      var m := WordLength(s[1..]);
      assert s[..m + 1] == [s[0]] + s[1..][..m];
      m + 1
  }

  // The words that istream_iterator<string> reads.
  function Words(s: string): seq<string>
    decreases |s|
  {
    var t := SkipSpaces(s);
    if t == "" then []
    else
      var n := WordLength(t);
      [t[..n]] + Words(t[n..])
  }

  datatype ClientInfo = ClientInfo(ip: string, user: string, pwd: string, backupPath: string)

  // The constructor reads the first word without looking whether there is one.
  function Parse(msg: string, isIP4: string -> bool): ClientInfo
    requires Words(msg) != []
  {
    var tokens := Words(msg);
    ClientInfo(
      if isIP4(tokens[0]) then tokens[0] else "",
      if |tokens| == 2 then tokens[1] else "",
      if |tokens| == 3 then tokens[2] else "",
      "")
  }

  function Announce(ip: string, info: string): string {
    ip + " " + info
  }

  lemma {:induction false} WordThenSpace(w: string, rest: string)
    requires NoSpaces(w) && rest != "" && IsSpace(rest[0])
    ensures WordLength(w + rest) == |w|
  {
    if w == "" {
      assert w + rest == rest;
    } else {
      assert (w + rest)[1..] == w[1..] + rest;
      WordThenSpace(w[1..], rest);
    }
  }

  // The first word of an announcement is the client's address, and the others are those of the
  // line that the user typed.
  lemma WordsOfAnnouncement(ip: string, info: string)
    requires ip != "" && NoSpaces(ip)
    ensures Words(Announce(ip, info)) == [ip] + Words(info)
  {
    var rest := " " + info;
    var s := Announce(ip, info);
    assert s == ip + rest && s[0] == ip[0];
    WordThenSpace(ip, rest);
    assert SkipSpaces(s) == s && s[..|ip|] == ip && s[|ip|..] == rest;
    assert rest[1..] == info;
    assert SkipSpaces(rest) == SkipSpaces(info);
  }

  // The announcement is read back with the sender's address, if that is one; the user name is kept
  // exactly when it is the only word typed, and the password exactly when it is the second of two.
  lemma AnnouncementReadBack(ip: string, info: string, isIP4: string -> bool)
    requires ip != "" && NoSpaces(ip)
    ensures Words(Announce(ip, info)) != []
    ensures var c, typed := Parse(Announce(ip, info), isIP4), Words(info);
      && c.ip == (if isIP4(ip) then ip else "")
      && c.user == (if |typed| == 1 then typed[0] else "")
      && c.pwd == (if |typed| == 2 then typed[1] else "")
  {
    WordsOfAnnouncement(ip, info);
  }

  // ---- What the words of a text are ----

  lemma {:induction false} BlankHasNoWords(b: string)
    requires forall i :: 0 <= i < |b| ==> IsSpace(b[i])
    ensures Words(b) == []
  {
    SkipsAllSpaces(b, "");
    assert b + "" == b;
  }

  lemma WordAlone(w: string)
    requires NoSpaces(w)
    ensures WordLength(w) == |w|
  {
    if w != "" {
      WordAlone(w[1..]);
    }
  }

  lemma WordIsCut(w: string, rest: string)
    requires NoSpaces(w) && (rest == "" || IsSpace(rest[0]))
    ensures WordLength(w + rest) == |w| && (w + rest)[..|w|] == w && (w + rest)[|w|..] == rest
  {
    if rest == "" {
      assert w + rest == w;
      WordAlone(w);
    } else {
      WordThenSpace(w, rest);
    }
  }

  // Blanks, a word, and then a rest that cannot go on with the word.
  lemma WordsCut(b: string, w: string, rest: string)
    requires (forall i :: 0 <= i < |b| ==> IsSpace(b[i])) && w != "" && NoSpaces(w)
    requires rest == "" || IsSpace(rest[0])
    ensures Words(b + w + rest) == [w] + Words(rest)
  {
    assert b + w + rest == b + (w + rest) && (w + rest)[0] == w[0];
    SkipsAllSpaces(b, w + rest);
    WordIsCut(w, rest);
  }
}
