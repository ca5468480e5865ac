/** Tunnel labels and public hosts (internal/tunnel/tunnel.go), on ASCII names. */
module Labels {
  import opened Text

  predicate IsAlnum(c: char) {
    IsLower(c) || IsDigit(c)
  }

  predicate IsSeparator(c: char) {
    c == '-' || c == '_' || IsSpace(c)
  }

  // The sanitizer as a fold over the lower-cased name.

  datatype Builder = Builder(text: string, prevDash: bool)

  function Feed(b: Builder, c: char): Builder {
    if IsAlnum(c) then Builder(b.text + [c], false)
    else if IsSeparator(c) && !b.prevDash && |b.text| > 0 then Builder(b.text + "-", true)
    else b
  }

  function Scan(s: string): Builder {
    if s == "" then Builder("", false) else Feed(Scan(s[..|s| - 1]), s[|s| - 1])
  }

  function TrimDashesLeft(s: string): string {
    if s != "" && s[0] == '-' then TrimDashesLeft(s[1..]) else s
  }

  function TrimDashes(s: string): string {
    if s != "" && s[|s| - 1] == '-' then TrimDashes(s[..|s| - 1]) else TrimDashesLeft(s)
  }

  function SanitizeLabel(name: string): string {
    TrimDashes(Scan(ToLower(name)).text)
  }

  /** sanitizeLabel, the loop over a string builder. */
  method Sanitize(name: string) returns (tag: string)
    ensures tag == SanitizeLabel(name)
  {
    var b, prevDash := "", false;
    var lowered := ToLower(name);
    for i := 0 to |lowered|
      invariant Builder(b, prevDash) == Scan(lowered[..i])
    {
      var r := lowered[i];
      assert lowered[..i + 1][..i] == lowered[..i];
      if IsLower(r) || IsDigit(r) {
        b := b + [r];
        prevDash := false;
      } else if r == '-' || r == '_' || IsSpace(r) {
        if !prevDash && |b| > 0 {
          b := b + "-";
          prevDash := true;
        }
      }
    }
    assert lowered[..|lowered|] == lowered;
    tag := TrimDashes(b);
  }

  // What it computes: the words of the name joined by single dashes.

  /** The words between separators, some of them empty; other characters are dropped. */
  function Words(s: string): (ws: seq<string>)
    ensures ws != []
    ensures forall i, j | 0 <= i < |ws| && 0 <= j < |ws[i]| :: IsAlnum(ws[i][j])
  {
    if s == "" then [""] else
    var ws, c := Words(s[..|s| - 1]), s[|s| - 1];
    if IsAlnum(c) then ws[..|ws| - 1] + [ws[|ws| - 1] + [c]]
    else if IsSeparator(c) then ws + [""]
    else ws
  }

  /** Joins the non-empty words. */
  function Join(ws: seq<string>): string {
    if ws == [] then "" else
    var joined, word := Join(ws[..|ws| - 1]), ws[|ws| - 1];
    if word == "" then joined else if joined == "" then word else joined + "-" + word
  }

  /** Lower-case letters, digits and single inner dashes. */
  predicate IsLabel(s: string) {
    && (forall i | 0 <= i < |s| :: IsAlnum(s[i]) || s[i] == '-')
    && (forall i | 0 < i < |s| :: s[i - 1] == '-' ==> s[i] != '-')
    && (s != "" ==> s[0] != '-' && s[|s| - 1] != '-')
  }

  lemma {:induction false} JoinIsLabel(ws: seq<string>)
    requires forall i, j | 0 <= i < |ws| && 0 <= j < |ws[i]| :: IsAlnum(ws[i][j])
    ensures IsLabel(Join(ws))
    decreases |ws|
  {
    if ws != [] {
      var init := ws[..|ws| - 1];
      assert forall i | 0 <= i < |init| :: init[i] == ws[i];
      JoinIsLabel(init);
      var joined, word := Join(init), ws[|ws| - 1];
      assert forall j | 0 <= j < |word| :: IsAlnum(word[j]);
    }
  }

  /** The builder holds the joined words, and one dash when a word is awaited. */
  lemma {:induction false} ScanJoins(s: string)
    ensures var joined, awaiting := Join(Words(s)), Words(s)[|Words(s)| - 1] == "";
      Scan(s) == if joined != "" && awaiting then Builder(joined + "-", true) else Builder(joined, false)
    decreases |s|
  {
    if s != "" {
      var ws, c := Words(s[..|s| - 1]), s[|s| - 1];
      ScanJoins(s[..|s| - 1]);
      if IsAlnum(c) {
        assert Words(s)[..|ws| - 1] == ws[..|ws| - 1];
      } else if IsSeparator(c) {
        assert Words(s)[..|ws|] == ws;
      }
    }
  }

  lemma TrimDashesLabel(s: string)
    requires IsLabel(s)
    ensures TrimDashes(s) == s
    ensures s != "" ==> TrimDashes(s + "-") == s
  {
    assert TrimDashesLeft(s) == s;
    assert (s + "-")[..|s + "-"| - 1] == s;
  }

  /** The label of any name is its words, joined by single dashes. */
  lemma SanitizeJoinsWords(name: string)
    ensures SanitizeLabel(name) == Join(Words(ToLower(name)))
    ensures IsLabel(SanitizeLabel(name))
  {
    var s := ToLower(name);
    ScanJoins(s);
    JoinIsLabel(Words(s));
    TrimDashesLabel(Join(Words(s)));
  }

  lemma {:induction false} ScanLabel(s: string)
    requires forall i | 0 <= i < |s| :: IsAlnum(s[i]) || s[i] == '-'
    requires forall i | 0 < i < |s| :: s[i - 1] == '-' ==> s[i] != '-'
    requires s != "" ==> s[0] != '-'
    ensures Scan(s) == Builder(s, s != "" && s[|s| - 1] == '-')
    decreases |s|
  {
    if s != "" {
      ScanLabel(s[..|s| - 1]);
    }
  }

  /** A dash, an underscore or white space separates the words before it from those
      behind it. */
  lemma {:induction false} SeparatorsSplit(a: string, c: char, b: string)
    requires c in {'-', '_', ' ', '\t', '\n', '\r', '\U{0B}', '\U{0C}'}
    ensures Words(a + [c] + b) == Words(a) + Words(b)
    decreases |b|
  {
    var s := a + [c] + b;
    if b == "" {
      assert s[..|s| - 1] == a && s[|s| - 1] == c;
    } else {
      var init, last := b[..|b| - 1], b[|b| - 1];
      assert s[..|s| - 1] == a + [c] + init && s[|s| - 1] == last;
      SeparatorsSplit(a, c, init);
      assert (Words(a) + Words(init))[..|Words(a)| + |Words(init)| - 1] == Words(a) + Words(init)[..|Words(init)| - 1];
    }
  }

  lemma LabelIsLower(s: string)
    requires IsLabel(s)
    ensures ToLower(s) == s && IsTrimmed(s) && '.' !in s
  {
  }

  /** Labels are exactly the fixed points, so sanitizing is idempotent. */
  lemma LabelsAreFixed(s: string)
    ensures IsLabel(s) <==> SanitizeLabel(s) == s
    ensures SanitizeLabel(SanitizeLabel(s)) == SanitizeLabel(s)
  {
    SanitizeJoinsWords(s);
    FixLabel(SanitizeLabel(s));
    if IsLabel(s) {
      FixLabel(s);
    }
  }

  lemma FixLabel(s: string)
    requires IsLabel(s)
    ensures SanitizeLabel(s) == s
  {
    LabelIsLower(s);
    ScanLabel(s);
  }

  // Hosts.

  function HostForSubdomain(publicHost: string, subdomain: string): string {
    var tag := SanitizeLabel(subdomain);
    if tag == "" then publicHost
    else if publicHost == "" then tag
    else tag + "." + publicHost
  }

  function NormalizeHost(host: string): string {
    TrimSpace(ToLower(host))
  }

  predicate HasSuffix(s: string, suffix: string) {
    |s| >= |suffix| && s[|s| - |suffix|..] == suffix
  }

  function ExtractSubdomain(rawHost: string, rawPublicHost: string): string {
    var host, publicHost := NormalizeHost(rawHost), NormalizeHost(rawPublicHost);
    if host == "" || publicHost == "" || host == publicHost then "" else
    var suffix := "." + publicHost;
    if !HasSuffix(host, suffix) then "" else
    var subdomain := host[..|host| - |suffix|];
    if subdomain == "" || '.' in subdomain then "" else SanitizeLabel(subdomain)
  }

  datatype PublicURL = PublicURL(scheme: string, host: string)
  datatype Descriptor = Descriptor(sessionID: string, subdomain: string, host: string, publicURL: PublicURL)

  function PublicURLForSubdomain(publicHost: string, subdomain: string, protocol: string): PublicURL {
    PublicURL(if protocol == "https" || protocol == "tcp" then protocol else "http",
              HostForSubdomain(publicHost, subdomain))
  }

  function Prepare(publicHost: string, sessionID: string, rawSubdomain: string, protocol: string): Descriptor {
    var tag := SanitizeLabel(rawSubdomain);
    var subdomain := if tag == "" then sessionID else tag;
    Descriptor(sessionID, subdomain, HostForSubdomain(publicHost, subdomain),
               PublicURLForSubdomain(publicHost, subdomain, protocol))
  }

  // Trimming and lower-casing hosts.

  predicate Blank(s: string) {
    forall i | 0 <= i < |s| :: IsSpace(s[i])
  }

  /** Starts and ends with a visible character. */
  predicate Visible(s: string) {
    s != "" && !IsSpace(s[0]) && !IsSpace(s[|s| - 1])
  }

  lemma {:induction false} TrimRightPads(s: string, back: string)
    requires Blank(back) && (s == "" || !IsSpace(s[|s| - 1]))
    ensures TrimRight(s + back) == s
    decreases |back|
  {
    if back == "" {
      assert s + back == s;
    } else {
      assert (s + back)[..|s + back| - 1] == s + back[..|back| - 1];
      TrimRightPads(s, back[..|back| - 1]);
    }
  }

  lemma {:induction false} TrimLeftPads(front: string, s: string)
    requires Blank(front) && (s == "" || !IsSpace(s[0]))
    ensures TrimLeft(front + s) == s
    decreases |front|
  {
    if front == "" {
      assert front + s == s;
    } else {
      assert (front + s)[1..] == front[1..] + s;
      TrimLeftPads(front[1..], s);
    }
  }

  /** Every string is blanks, a core with visible ends (or nothing), and blanks. */
  lemma {:induction false} Parts(s: string) returns (front: string, core: string, back: string)
    ensures s == front + core + back && Blank(front) && Blank(back)
    ensures Visible(core) || (core == "" && back == "")
    decreases |s|
  {
    if s != "" && IsSpace(s[0]) {
      front, core, back := Parts(s[1..]);
      front := [s[0]] + front;
    } else if s != "" && IsSpace(s[|s| - 1]) {
      front, core, back := Parts(s[..|s| - 1]);
      assert front == "";
      back := back + [s[|s| - 1]];
    } else {
      front, core, back := "", s, "";
    }
  }

  lemma TrimPadded(front: string, core: string, back: string)
    requires Blank(front) && Blank(back) && Visible(core)
    ensures TrimSpace(front + core + back) == core
    ensures TrimRight(front + core + back) == front + core
  {
    assert front + core + back == front + (core + back);
    TrimLeftPads(front, core + back);
    TrimRightPads(core, back);
    TrimRightPads(front + core, back);
  }

  lemma TrimBlank(s: string)
    requires Blank(s)
    ensures TrimSpace(s) == ""
  {
    assert s + "" == s;
    TrimLeftPads(s, "");
  }

  lemma ToLowerAppend(a: string, b: string)
    ensures ToLower(a + b) == ToLower(a) + ToLower(b)
  {
  }

  /** Normalising a label in front of something trims that on the right only. */
  lemma NormalAfterLabel(tag: string, dotted: string)
    requires IsLabel(tag) && tag != "" && |dotted| > 0 && dotted[0] == '.'
    ensures NormalizeHost(tag + dotted) == tag + TrimRight(ToLower(dotted))
  {
    LabelIsLower(tag);
    ToLowerAppend(tag, dotted);
    var lowered := ToLower(dotted);
    var front, core, back := Parts(lowered);
    assert lowered[0] == '.';
    assert lowered == core + back;
    TrimRightPads(core, back);
    assert tag + lowered == "" + (tag + core) + back;
    TrimPadded("", tag + core, back);
  }

  lemma NormalLabel(tag: string)
    requires IsLabel(tag)
    ensures NormalizeHost(tag) == tag
  {
    LabelIsLower(tag);
    TrimSpaceTrims(tag);
  }

  lemma NormalIdempotent(host: string)
    ensures NormalizeHost(NormalizeHost(host)) == NormalizeHost(host)
  {
    var lowered := ToLower(host);
    var front, core, back := Parts(lowered);
    if core == "" {
      assert lowered == front;
      TrimBlank(lowered);
    } else {
      TrimPadded(front, core, back);
      LowerPart(host, front, core, back);
      assert core == "" + core + "";
      TrimPadded("", core, "");
    }
  }

  lemma LowerPart(host: string, front: string, core: string, back: string)
    requires ToLower(host) == front + core + back
    ensures ToLower(core) == core
  {
    forall i | 0 <= i < |core| ensures Lower(core[i]) == core[i] {
      assert core[i] == ToLower(host)[|front| + i];
    }
  }

  /** Does the public host, as configured, begin with a visible character? */
  predicate HasFront(publicHost: string) {
    publicHost != "" && !IsSpace(publicHost[0])
  }

  /** A public host is blanks, its normal form and blanks. */
  lemma PublicParts(publicHost: string) returns (front: string, core: string)
    requires publicHost != ""
    ensures Blank(front) && (front == "" <==> HasFront(publicHost))
    ensures core == NormalizeHost(publicHost)
    ensures core != "" ==> TrimRight(ToLower("." + publicHost)) == "." + (front + core)
  {
    var lowered := ToLower(publicHost);
    var back;
    front, core, back := Parts(lowered);
    assert IsSpace(lowered[0]) == IsSpace(publicHost[0]);
    if core == "" {
      assert lowered == front;
      TrimBlank(lowered);
    } else {
      TrimPadded(front, core, back);
      ToLowerAppend(".", publicHost);
      assert ToLower("." + publicHost) == ("." + (front + core)) + back;
      TrimRightPads("." + (front + core), back);
    }
  }

  /** The host of a label, normalised: what lies between label and public host. */
  lemma NormalHost(publicHost: string, tag: string) returns (front: string, core: string)
    requires IsLabel(tag) && tag != "" && publicHost != ""
    ensures Blank(front) && (front == "" <==> HasFront(publicHost))
    ensures core == NormalizeHost(publicHost)
    ensures core != "" ==> NormalizeHost(HostForSubdomain(publicHost, tag)) == tag + ("." + (front + core))
  {
    FixLabel(tag);
    front, core := PublicParts(publicHost);
    var dotted := "." + publicHost;
    assert tag + "." + publicHost == tag + dotted;
    NormalAfterLabel(tag, dotted);
  }

  lemma SuffixOfHost(tag: string, front: string, core: string)
    requires Blank(front)
    ensures HasSuffix(tag + ("." + (front + core)), "." + core) <==> front == ""
  {
    var host, suffix := tag + ("." + (front + core)), "." + core;
    var i := |host| - |suffix|;
    if front == "" {
      assert front + core == core;
      assert host[i..] == suffix;
    } else {
      assert i == |tag| + |front|;
      assert host[i] == front[|front| - 1];
      assert host[i..][0] == host[i];
      assert suffix[0] == '.';
    }
  }

  lemma ExtractLabel(publicHost: string, tag: string)
    requires IsLabel(tag) && tag != "" && publicHost != ""
    ensures ExtractSubdomain(HostForSubdomain(publicHost, tag), publicHost) ==
            if HasFront(publicHost) then tag else ""
  {
    var front, core := NormalHost(publicHost, tag);
    if core != "" {
      var host := tag + ("." + (front + core));
      SuffixOfHost(tag, front, core);
      if front == "" {
        assert host[..|host| - |"." + core|] == tag;
        LabelIsLower(tag);
        FixLabel(tag);
      }
    } else {
      assert NormalizeHost(publicHost) == "";
      BlankHasNoFront(publicHost);
    }
  }

  lemma BlankHasNoFront(publicHost: string)
    requires NormalizeHost(publicHost) == ""
    ensures !HasFront(publicHost)
  {
    var front, core, back := Parts(ToLower(publicHost));
    if core != "" {
      TrimPadded(front, core, back);
    } else if publicHost != "" {
      assert ToLower(publicHost)[0] == front[0];
    }
  }

  /** The round trip from a subdomain to its host and back, for every configured
      public host: it returns the label exactly when there is none or the public
      host starts with a visible character. */
  lemma SubdomainRoundTrip(publicHost: string, subdomain: string)
    ensures ExtractSubdomain(HostForSubdomain(publicHost, subdomain), publicHost) == SanitizeLabel(subdomain)
            <==> SanitizeLabel(subdomain) == "" || HasFront(publicHost)
  {
    var tag := SanitizeLabel(subdomain);
    LabelsAreFixed(subdomain);
    SanitizeJoinsWords(subdomain);
    if tag != "" && publicHost != "" {
      assert HostForSubdomain(publicHost, subdomain) == HostForSubdomain(publicHost, tag);
      ExtractLabel(publicHost, tag);
    }
  }

  /** The host is the raw name, a dot and the public host, once both are normalised,
      and the name, which has no dot of its own, has the words of the tag. */
  predicate Splits(publicHost: string, host: string, raw: string, tag: string) {
    && NormalizeHost(publicHost) != "" && NormalizeHost(host) == raw + "." + NormalizeHost(publicHost)
    && '.' !in raw && tag == Join(Words(ToLower(raw)))
  }

  ghost predicate IsSubdomainOf(publicHost: string, host: string, tag: string) {
    tag != "" && exists raw: string :: Splits(publicHost, host, raw, tag)
  }

  lemma SplitFound(publicHost: string, host: string, raw: string, tag: string)
    requires Splits(publicHost, host, raw, tag)
    ensures ExtractSubdomain(host, publicHost) == tag
  {
    if raw == "" {
      assert ToLower(raw) == "" && Words("") == [""] && Join([""]) == "";
    }
    var h, suffix := NormalizeHost(host), "." + NormalizeHost(publicHost);
    assert h == raw + suffix;
    assert h[|h| - |suffix|..] == suffix && h[..|h| - |suffix|] == raw;
    SanitizeJoinsWords(raw);
  }

  /** What extracting a subdomain gives, for every host: a label exactly when it is
      the label of a dotless name in front of the public host. */
  lemma ExtractExactly(publicHost: string, host: string, tag: string)
    requires tag != ""
    ensures ExtractSubdomain(host, publicHost) == tag <==> IsSubdomainOf(publicHost, host, tag)
  {
    if ExtractSubdomain(host, publicHost) == tag {
      var h, suffix := NormalizeHost(host), "." + NormalizeHost(publicHost);
      var raw := h[..|h| - |suffix|];
      assert h == raw + suffix;
      SanitizeJoinsWords(raw);
      assert Splits(publicHost, host, raw, tag);
    }
    if IsSubdomainOf(publicHost, host, tag) {
      var raw :| Splits(publicHost, host, raw, tag);
      SplitFound(publicHost, host, raw, tag);
    }
  }

  lemma AppendInjective(a: string, b: string, tail: string)
    requires a + tail == b + tail
    ensures a == b
  {
    assert a == (a + tail)[..|a|] && b == (b + tail)[..|b|];
  }

  /** The host determines the label. */
  lemma HostDeterminesLabel(publicHost: string, a: string, b: string)
    requires HostForSubdomain(publicHost, a) == HostForSubdomain(publicHost, b)
    ensures SanitizeLabel(a) == SanitizeLabel(b)
  {
    var x, y, tail := SanitizeLabel(a), SanitizeLabel(b), "." + publicHost;
    assert x + "." + publicHost == x + tail && y + "." + publicHost == y + tail;
    if x != "" && y != "" && publicHost != "" {
      AppendInjective(x, y, tail);
    }
  }

  /** So does the host in the form lookups use. */
  lemma LookupHostDeterminesLabel(publicHost: string, x: string, y: string)
    requires IsLabel(x) && IsLabel(y) && x != "" && y != ""
    requires NormalizeHost(HostForSubdomain(publicHost, x)) == NormalizeHost(HostForSubdomain(publicHost, y))
    ensures x == y
  {
    LookupHost(publicHost, x);
    LookupHost(publicHost, y);
    if publicHost != "" {
      AppendInjective(x, y, TrimRight(ToLower("." + publicHost)));
    }
  }

  lemma LookupHost(publicHost: string, tag: string)
    requires IsLabel(tag) && tag != ""
    ensures NormalizeHost(HostForSubdomain(publicHost, tag)) ==
            if publicHost == "" then tag else tag + TrimRight(ToLower("." + publicHost))
  {
    FixLabel(tag);
    NormalLabel(tag);
    var dotted := "." + publicHost;
    assert tag + "." + publicHost == tag + dotted;
    NormalAfterLabel(tag, dotted);
  }
}
