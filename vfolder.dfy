/**
 * The virtual-folder name check of the legacy client (`_rx_slug`,
 * `^[a-zA-Z0-9]([a-zA-Z0-9._-]*[a-zA-Z0-9])?$` used with `search`), where it guards
 * `BaseVFolder._create` and `BaseVFolder.__init__`, and the status test of `_delete`.
 */
module VFolders {
  import opened Common
  import opened Values

  // ---------------------------------------------------------------------------
  // Character classes
  // ---------------------------------------------------------------------------

  /** `[a-zA-Z0-9]`. */
  predicate IsAlnum(c: char)
  {
    ('a' <= c <= 'z') || ('A' <= c <= 'Z') || ('0' <= c <= '9')
  }

  /** `[a-zA-Z0-9._-]`. */
  predicate IsSlugChar(c: char)
  {
    IsAlnum(c) || c == '.' || c == '_' || c == '-'
  }

  // ---------------------------------------------------------------------------
  // What the pattern accepts, stated declaratively
  // ---------------------------------------------------------------------------

  /**
   * The text the pattern's body matches in full: one letter or digit, or a letter or
   * digit, any run of slug characters, and a final letter or digit.
   */
  predicate IsSlug(s: string)
  {
    |s| >= 1 && IsAlnum(s[0]) &&
    (|s| >= 2 ==> IsAlnum(s[|s| - 1]) && forall i :: 1 <= i < |s| - 1 ==> IsSlugChar(s[i]))
  }

  /**
   * `_rx_slug.search(name) is not None`. The pattern is anchored with `^`, so the match
   * starts at 0; Python's `$` (without MULTILINE) matches at the end of the string or
   * just before a newline that ends it, so a slug followed by one '\n' is accepted too.
   */
  predicate SlugAccepted(name: string)
  {
    IsSlug(name) || (|name| >= 1 && name[|name| - 1] == '\n' && IsSlug(name[..|name| - 1]))
  }

  // ---------------------------------------------------------------------------
  // The matcher
  // ---------------------------------------------------------------------------

  /** The end of the greedy run `[a-zA-Z0-9._-]*` that starts at `i`. */
  function SlugRunEnd(s: string, i: nat): (j: nat)
    requires i <= |s|
    ensures i <= j <= |s|
    ensures forall k :: i <= k < j ==> IsSlugChar(s[k])
    ensures j < |s| ==> !IsSlugChar(s[j])
    decreases |s| - i
  {
    if i < |s| && IsSlugChar(s[i]) then SlugRunEnd(s, i + 1) else i
  }

  /** Python's `$`: at the end of the string, or before a final '\n'. */
  predicate DollarAt(s: string, k: nat)
  {
    k == |s| || (k + 1 == |s| && s[k] == '\n')
  }

  /**
   * How the pattern is matched from position 0: the first character must be a letter
   * or digit; the optional group can only end where the greedy run of slug characters
   * ends (no earlier position is followed by `$`, since '\n' is not a slug character),
   * and there it needs a letter or digit last; `$` must hold where the match ends.
   */
  function SearchSlug(name: string): bool
  {
    if |name| == 0 || !IsAlnum(name[0]) then false
    else
      var j := SlugRunEnd(name, 1);
      DollarAt(name, j) && (j == 1 || IsAlnum(name[j - 1]))
  }

  /** The matcher accepts exactly the names the pattern describes. */
  lemma SearchSlugCorrect(name: string)
    ensures SearchSlug(name) <==> SlugAccepted(name)
  {
    if |name| >= 1 && IsAlnum(name[0]) {
      var j := SlugRunEnd(name, 1);
      if SearchSlug(name) {
        if j == |name| {
          assert IsSlug(name);
        } else {
          var body := name[..|name| - 1];
          assert |body| == j;
          assert forall i :: 1 <= i < |body| - 1 ==> body[i] == name[i];
          assert IsSlug(body);
        }
      }
      if SlugAccepted(name) {
        if IsSlug(name) {
          // every character after the first is a slug character, so the run reaches the end
          assert forall k :: 1 <= k < |name| ==> IsSlugChar(name[k]);
          assert j == |name|;
        } else {
          var body := name[..|name| - 1];
          assert IsSlug(body);
          assert forall k :: 1 <= k < |body| ==> IsSlugChar(name[k]) by {
            forall k | 1 <= k < |body| ensures IsSlugChar(name[k]) {
              assert name[k] == body[k];
            }
          }
          assert !IsSlugChar(name[|name| - 1]);
          assert j == |body|;
          assert j == 1 || name[j - 1] == body[|body| - 1];
        }
      }
    } else {
      assert !IsSlug(name);
      if |name| >= 1 {
        assert name[..|name| - 1] == [] || name[..|name| - 1][0] == name[0];
      }
    }
  }

  // ---------------------------------------------------------------------------
  // What the pattern promises
  // ---------------------------------------------------------------------------

  /**
   * An accepted name, less an optional final newline, is non-empty, starts with a
   * letter or digit, ends with one, and has only slug characters in between.
   */
  lemma AcceptedShape(name: string)
    requires SlugAccepted(name)
    ensures var body := if IsSlug(name) then name else name[..|name| - 1];
      && |body| >= 1 && IsAlnum(body[0]) && IsAlnum(body[|body| - 1])
      && (forall i :: 0 <= i < |body| ==> IsSlugChar(body[i]))
      && (body == name || name == body + "\n")
  {
  }

  /** A single letter or digit is a name; a slug followed by one newline is accepted, by two it is not. */
  lemma NewlineEdge(s: string)
    requires IsSlug(s)
    ensures SlugAccepted(s + "\n")
    ensures !SlugAccepted(s + "\n\n")
    ensures |s| == 1 ==> SlugAccepted(s)
  {
    assert (s + "\n")[..|s|] == s;
    var t := s + "\n\n";
    assert !IsAlnum(t[|t| - 1]);
    assert t[..|t| - 1] == s + "\n";
    assert !IsAlnum((s + "\n")[|s|]);
  }

  /** Names the pattern turns down: a leading or trailing punctuation mark, an empty name. */
  lemma RejectedNames()
    ensures !SlugAccepted("")
    ensures !SlugAccepted("-a") && !SlugAccepted("a-") && !SlugAccepted("a b")
    ensures SlugAccepted("a") && SlugAccepted("a.b_c-d") && SlugAccepted("a\n")
  {
    assert "-a"[..1] == "-";
    assert "a-"[..1] == "a";
    assert !IsSlugChar("a b"[1]);
    assert "a\n"[..1] == "a";
  }

  // ---------------------------------------------------------------------------
  // The guarded operations
  // ---------------------------------------------------------------------------

  /** A request of the legacy client: method, path and JSON data. */
  datatype FolderRequest = FolderRequest(httpMethod: string, path: string, data: seq<(string, Value)>)

  /** A `VFolder` object: its name and the configuration it was opened with. */
  datatype VFolder<C> = VFolder(name: string, config: Option<C>)

  /** The bare `assert` raises an AssertionError without a message. */
  const BadName := AssertionError("")

  /**
   * `BaseVFolder._create(name)`: the name is checked before any request exists; an
   * accepted name yields POST /folders/ with {'name': name}.
   */
  function Create(name: string): (r: Outcome<FolderRequest>)
    ensures r.Raised? <==> !SlugAccepted(name)
    ensures r.Raised? ==> r.error == BadName
    ensures r.Done? ==> r.value.httpMethod == "POST" && r.value.path == "/folders/" &&
                        Get(r.value.data, "name") == Some(Str(name))
  {
    SearchSlugCorrect(name);
    if !SearchSlug(name) then Raised(BadName)
    else Done(FolderRequest("POST", "/folders/", [("name", Str(name))]))
  }

  /**
   * `VFolder(name, config=...)`: the check comes before `self.name` is stored, so a
   * rejected name leaves no object behind.
   */
  function New<C>(name: string, config: Option<C>): (r: Outcome<VFolder<C>>)
    ensures r.Raised? <==> !SlugAccepted(name)
    ensures r.Raised? ==> r.error == BadName
    ensures r.Done? ==> r.value.name == name && r.value.config == config
  {
    SearchSlugCorrect(name);
    if !SearchSlug(name) then Raised(BadName)
    else Done(VFolder(name, config))
  }

  /** The request `_delete` sends: DELETE /folders/<name>. */
  function DeleteRequest<C>(f: VFolder<C>): (r: FolderRequest)
    ensures r.httpMethod == "DELETE" && r.data == []
    ensures |r.path| == 9 + |f.name| && r.path[..9] == "/folders/" && r.path[9..] == f.name
  {
    FolderRequest("DELETE", "/folders/" + f.name, [])
  }

  /** What `_delete` returns: the decoded body on status 200, None on any other status. */
  function DeleteResult(status: int, body: Value): (r: Option<Value>)
    ensures r.Some? <==> status == 200
    ensures r.Some? ==> r.value == body
  {
    if status == 200 then Some(body) else None
  }

  /** Every folder object that exists carries an accepted name. */
  lemma NewFoldersHaveAcceptedNames<C>(name: string, config: Option<C>)
    requires New(name, config).Done?
    ensures SlugAccepted(New(name, config).value.name)
    ensures Create(New(name, config).value.name).Done?
  {
  }
}
