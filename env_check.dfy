/** The configuration check shown before the application starts: the backend's URL and
    public key must be set, look plausible and not be the placeholders of the example
    environment file. The two settings are parameters (`None` when unset). */
module EnvCheck {
  import Text
  import opened Values

  const UrlPlaceholder := "your_supabase_url_here"
  const KeyPlaceholder := "your_supabase_anon_key_here"
  const UrlProblem := "• VITE_SUPABASE_URL is missing, invalid, or contains placeholder value"
  const KeyProblem := "• VITE_SUPABASE_ANON_KEY is missing, invalid, or contains placeholder value"

  predicate IsPlaceholder(value: Option<string>)
  {
    value == Some(UrlPlaceholder) || value == Some(KeyPlaceholder)
  }

  /** Set, non-empty, an `https://` address, not a placeholder. */
  predicate HasValidUrl(url: Option<string>)
  {
    url.Some? && url.value != "" && Text.StartsWith(url.value, "https://") && !IsPlaceholder(url)
  }

  /** Set, non-empty, longer than 20 characters, not a placeholder. */
  predicate HasValidKey(key: Option<string>)
  {
    key.Some? && key.value != "" && |key.value| > 20 && !IsPlaceholder(key)
  }

  /** The listed problems, URL first. */
  function ProblemLines(url: Option<string>, key: Option<string>): seq<string>
  {
    (if HasValidUrl(url) then [] else [UrlProblem]) + (if HasValidKey(key) then [] else [KeyProblem])
  }

  /** The panel with its problem lines, or nothing (`None`) when both settings are valid. */
  function Render(url: Option<string>, key: Option<string>): Option<seq<string>>
  {
    if !HasValidUrl(url) || !HasValidKey(key) then Some(ProblemLines(url, key)) else None
  }

  /** The placeholder test on the URL is redundant: neither placeholder is an `https://`
      address, so the URL is valid exactly when it starts with `https://`. */
  lemma UrlValidIff(url: Option<string>)
    ensures HasValidUrl(url) <==> url.Some? && Text.StartsWith(url.value, "https://")
  {
    assert UrlPlaceholder[0] == 'y' && KeyPlaceholder[0] == 'y';
  }

  /** Both placeholders are longer than 20 characters, so for the key the placeholder test
      is what rejects them. */
  lemma KeyValidIff(key: Option<string>)
    ensures HasValidKey(key) <==>
              key.Some? && |key.value| > 20 && key.value != UrlPlaceholder && key.value != KeyPlaceholder
    ensures |UrlPlaceholder| > 20 && |KeyPlaceholder| > 20
  {
  }

  /** The panel is shown exactly when a setting is invalid; it then lists at least one
      problem, and each problem exactly when its own check fails. */
  lemma PanelIffInvalid(url: Option<string>, key: Option<string>)
    ensures Render(url, key).Some? <==> !HasValidUrl(url) || !HasValidKey(key)
    ensures Render(url, key).Some? ==> Render(url, key).value != []
    ensures UrlProblem in ProblemLines(url, key) <==> !HasValidUrl(url)
    ensures KeyProblem in ProblemLines(url, key) <==> !HasValidKey(key)
    ensures |ProblemLines(url, key)| <= 2
  {
    assert |UrlProblem| < |KeyProblem|;
  }
}
