/** The build's `base` setting (vite.config.ts), and how it agrees with the client's
    own base path. */
module ViteConfig {
  import opened Wrappers
  import opened Text
  import opened Api

  /** `normalizeBase`: a blank setting gives the default directory; anything else
      gets a leading slash and, if missing, a trailing one. */
  function NormalizeBase(input: Option<string>): (r: string)
    ensures StartsWithSlash(r) && EndsWithSlash(r)
    ensures SettingText(input) == "" ==> r == DefaultAdminBasename + "/"
    ensures SettingText(input) != "" ==>
      var w := WithLeadingSlash(SettingText(input));
      (EndsWithSlash(w) ==> r == w) && (!EndsWithSlash(w) ==> r == w + "/")
  {
    var raw := SettingText(input);
    if raw == "" then DefaultAdminBasename + "/"
    else
      var withSlash := WithLeadingSlash(raw);
      if EndsWithSlash(withSlash) then withSlash else withSlash + "/"
  }

  /** Normalising a normalised base changes nothing. */
  lemma {:induction false} NormalizeBaseIdempotent(input: Option<string>)
    ensures NormalizeBase(Some(NormalizeBase(input))) == NormalizeBase(input)
  {
    var r := NormalizeBase(input);
    TrimNoop(r);
    assert SettingText(Some(r)) == r;
  }

  /** The site base and the client's ADMIN_BASENAME name the same directory, for
      every setting except one that trims to "/". */
  lemma {:induction false} BaseAgreesWithAdminBasename(input: Option<string>)
    requires SettingText(input) != "/"
    ensures NormalizeBase(input) == AdminBasename(input) + "/"
  {
    var raw := SettingText(input);
    if raw != "" {
      var w := WithLeadingSlash(raw);
      if EndsWithSlash(w) {
        assert w != "/";
        assert NormalizeBasename(input) + "/" == w;
      }
    }
  }

  /** The exception: a setting of "/" serves the site at the root while
      ADMIN_BASENAME falls back to the default directory. */
  lemma RootSettingDisagrees()
    ensures NormalizeBase(Some("/")) == "/"
    ensures AdminBasename(Some("/")) == DefaultAdminBasename
  {
    TrimNoop("/");
  }
}
