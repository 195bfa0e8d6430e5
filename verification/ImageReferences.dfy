/** The CI webhook's grammars and the binding of an image to its automation's repository. */
module ImageReferences {
  import opened Domain
  import opened Transactions

  // --- the character classes ----------------------------------------------------

  predicate IsLowerHex(c: char) { '0' <= c <= '9' || 'a' <= c <= 'f' }
  predicate IsLowerAlnum(c: char) { '0' <= c <= '9' || 'a' <= c <= 'z' }
  predicate IsRepositoryChar(c: char) { IsLowerAlnum(c) || c == '.' || c == '_' || c == ':' || c == '/' || c == '-' }

  predicate AllLowerHex(s: string) { forall i | 0 <= i < |s| :: IsLowerHex(s[i]) }

  /** `[a-z0-9][a-z0-9._:/-]*` */
  predicate IsValidRepository(s: string) {
    && s != []
    && IsLowerAlnum(s[0])
    && forall i | 0 <= i < |s| :: IsRepositoryChar(s[i])
  }

  const DIGEST_MARK := "@sha256:"
  const DIGEST_LENGTH := 64

  /** Repository, `@sha256:` and 64 hex digits; the whole string, so no trailing newline. */
  predicate IsDigestPinned(s: string) {
    var at := |s| - DIGEST_LENGTH - |DIGEST_MARK|;
    && at >= 0
    && IsValidRepository(s[..at])
    && s[at..at + |DIGEST_MARK|] == DIGEST_MARK
    && AllLowerHex(s[at + |DIGEST_MARK|..])
  }

  /** The declarative reading of the pattern: some split of the string matches its parts. */
  ghost predicate MatchesDigestPattern(s: string) {
    exists repository: string, digest: string ::
      s == repository + DIGEST_MARK + digest
      && IsValidRepository(repository) && |digest| == DIGEST_LENGTH && AllLowerHex(digest)
  }

  lemma PatternIsScanned(s: string)
    ensures IsDigestPinned(s) <==> MatchesDigestPattern(s)
  {
    if IsDigestPinned(s) {
      var at := |s| - DIGEST_LENGTH - |DIGEST_MARK|;
      assert s == s[..at] + DIGEST_MARK + s[at + |DIGEST_MARK|..];
    }
    if MatchesDigestPattern(s) {
      var repository: string, digest: string :| s == repository + DIGEST_MARK + digest
        && IsValidRepository(repository) && |digest| == DIGEST_LENGTH && AllLowerHex(digest);
      var at := |repository|;
      assert s[..at] == repository;
      assert s[at..at + |DIGEST_MARK|] == DIGEST_MARK;
      assert s[at + |DIGEST_MARK|..] == digest;
    }
  }

  /** An admitted image is never a blank digest, so a built automation can be enabled. */
  lemma PinnedIsNotBlank(s: string)
    requires IsDigestPinned(s)
    ensures !Blank(s)
  {
    var at := |s| - DIGEST_LENGTH - |DIGEST_MARK|;
    assert s[0] == s[..at][0];
    assert !IsSpace(s[0]);
  }

  // --- the repository binding -----------------------------------------------------

  /** Python's `s.split("@", 1)[0]`. */
  function BeforeAt(s: string): (r: string)
    ensures '@' !in r && r <= s && (r == s || s[|r|] == '@')
  {
    if s == [] || s[0] == '@' then [] else [s[0]] + BeforeAt(s[1..])
  }

  /** Python's `s.rstrip("/")`. */
  function TrimSlashes(s: string): (r: string)
    ensures r <= s && (r == [] || r[|r| - 1] != '/')
    ensures forall i | |r| <= i < |s| :: s[i] == '/'
  {
    if s != [] && s[|s| - 1] == '/' then TrimSlashes(s[..|s| - 1]) else s
  }

  function ConfiguredImageRepository(setting: string): Option<string> {
    var prefix := TrimSlashes(setting);
    if prefix == [] || !IsValidRepository(prefix) then None else Some(prefix)
  }

  datatype ImageVerdict = OwnImage | RepositoryNotConfigured | ForeignImage

  function RequireOwnImage(setting: string, id: Uuid, image: Image): ImageVerdict {
    var prefix := ConfiguredImageRepository(setting);
    if prefix.None? then RepositoryNotConfigured
    else if BeforeAt(image.reference) != prefix.value + "/" + id.text then ForeignImage
    else OwnImage
  }

  /** A UUID's text: hex digits and dashes. */
  predicate IsUuidText(s: string) { s != [] && forall i | 0 <= i < |s| :: IsLowerHex(s[i]) || s[i] == '-' }

  lemma {:induction false} BeforeAtOfConcat(repository: string, rest: string)
    requires '@' !in repository && rest != [] && rest[0] == '@'
    ensures BeforeAt(repository + rest) == repository
  {
    var whole := repository + rest;
    if repository == [] {
      assert whole == rest;
    } else {
      assert whole[1..] == repository[1..] + rest;
      BeforeAtOfConcat(repository[1..], rest);
    }
  }

  predicate IsDigest(s: string) { |s| == DIGEST_LENGTH && AllLowerHex(s) }

  /** A pinned reference comes apart at its first `@`. */
  lemma PinnedParts(s: string) returns (digest: string)
    requires IsDigestPinned(s)
    ensures IsDigest(digest) && IsValidRepository(BeforeAt(s)) && s == BeforeAt(s) + DIGEST_MARK + digest
  {
    var at := |s| - DIGEST_LENGTH - |DIGEST_MARK|;
    digest := s[at + |DIGEST_MARK|..];
    assert s == s[..at] + (DIGEST_MARK + digest);
    BeforeAtOfConcat(s[..at], DIGEST_MARK + digest);
  }

  lemma PartsArePinned(repository: string, digest: string)
    requires IsValidRepository(repository) && IsDigest(digest)
    ensures IsDigestPinned(repository + DIGEST_MARK + digest)
    ensures BeforeAt(repository + DIGEST_MARK + digest) == repository
  {
    PatternIsScanned(repository + DIGEST_MARK + digest);
    assert repository + DIGEST_MARK + digest == repository + (DIGEST_MARK + digest);
    BeforeAtOfConcat(repository, DIGEST_MARK + digest);
  }

  /** Prefix, `/`, the automation's id, `@sha256:` and a digest. */
  ghost predicate IsOwnReference(prefix: string, id: Uuid, reference: string) {
    exists digest: string :: IsDigest(digest) && reference == prefix + "/" + id.text + DIGEST_MARK + digest
  }

  lemma OwnRepositoryIsValid(prefix: string, id: Uuid)
    requires IsUuidText(id.text)
    ensures IsValidRepository(prefix + "/" + id.text) <==> IsValidRepository(prefix)
  {
    var whole := prefix + "/" + id.text;
    assert forall i | 0 <= i < |prefix| :: whole[i] == prefix[i];
    assert whole[|prefix|] == '/';
    if IsValidRepository(prefix) {
      forall i | 0 <= i < |whole| ensures IsRepositoryChar(whole[i]) {
        if i > |prefix| {
          assert whole[i] == id.text[i - |prefix| - 1];
        }
      }
    }
  }

  /** A payload passes the grammar and the binding exactly when its image is its own reference. */
  lemma OwnImageExactly(setting: string, id: Uuid, image: Image)
    requires IsUuidText(id.text)
    ensures IsDigestPinned(image.reference) && RequireOwnImage(setting, id, image) == OwnImage
       <==> ConfiguredImageRepository(setting).Some? && IsOwnReference(TrimSlashes(setting), id, image.reference)
  {
    if IsDigestPinned(image.reference) && RequireOwnImage(setting, id, image) == OwnImage {
      var digest := PinnedParts(image.reference);
    }
    if ConfiguredImageRepository(setting).Some? && IsOwnReference(TrimSlashes(setting), id, image.reference) {
      OwnReferencePasses(setting, id, image);
    }
  }

  /** Every verdict on a success image: no usable setting comes before a foreign repository. */
  lemma VerdictsExactly(setting: string, id: Uuid, image: Image)
    requires IsUuidText(id.text) && IsDigestPinned(image.reference)
    ensures RequireOwnImage(setting, id, image) == RepositoryNotConfigured <==> !Matchable(setting, id)
    ensures RequireOwnImage(setting, id, image) == ForeignImage <==>
      Matchable(setting, id) && !IsOwnReference(TrimSlashes(setting), id, image.reference)
  {
    SettingAcceptedExactly(setting, id);
    OwnImageExactly(setting, id, image);
  }

  lemma OwnReferencePasses(setting: string, id: Uuid, image: Image)
    requires IsUuidText(id.text)
    requires ConfiguredImageRepository(setting).Some? && IsOwnReference(TrimSlashes(setting), id, image.reference)
    ensures IsDigestPinned(image.reference) && RequireOwnImage(setting, id, image) == OwnImage
  {
    var prefix := TrimSlashes(setting);
    var digest: string :| IsDigest(digest) && image.reference == prefix + "/" + id.text + DIGEST_MARK + digest;
    OwnRepositoryIsValid(prefix, id);
    PartsArePinned(prefix + "/" + id.text, digest);
  }

  ghost predicate Matchable(setting: string, id: Uuid) {
    exists image: Image ::
      IsDigestPinned(image.reference) && BeforeAt(image.reference) == TrimSlashes(setting) + "/" + id.text
  }

  /** The setting is accepted exactly when some image could ever satisfy both checks. */
  lemma SettingAcceptedExactly(setting: string, id: Uuid)
    requires IsUuidText(id.text)
    ensures ConfiguredImageRepository(setting).Some? <==> Matchable(setting, id)
  {
    var prefix := TrimSlashes(setting);
    OwnRepositoryIsValid(prefix, id);
    if ConfiguredImageRepository(setting).Some? {
      var digest := seq(DIGEST_LENGTH, _ => '0');
      PartsArePinned(prefix + "/" + id.text, digest);
      assert Matchable(setting, id) by {
        var image := Image(prefix + "/" + id.text + DIGEST_MARK + digest);
        assert IsDigestPinned(image.reference) && BeforeAt(image.reference) == prefix + "/" + id.text;
      }
    } else if Matchable(setting, id) {
      var image: Image :| IsDigestPinned(image.reference) && BeforeAt(image.reference) == prefix + "/" + id.text;
      var _ := PinnedParts(image.reference);
      assert false;
    }
  }
}
