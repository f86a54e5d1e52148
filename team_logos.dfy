/** Team logos: a fixed table from team name to logo path with a default
    for unknown teams, and a table that maps a club's alternative names to
    the one the logo table uses. Both tables are object literals in the
    source; each is written here as a match on the name, entry by entry in
    the source's order, with no entry for a name the literal lacks. */
module TeamLogos {
  import opened Models

  /** The path of a file in the logos directory. */
  function Logo(file: string): string
  {
    "/logos/" + file + ".png"
  }

  const DefaultLogo := Logo("default-team")

  /** The logo table, by file name: a listed club's logo is
      /logos/<file>.png; the "default" entry names the default logo. */
  function LogoFile(name: string): Option<string>
  {
    match name
    case "Galatasaray" => Some("galatasaray")
    case "Fenerbahçe" => Some("fenerbahce")
    case "Beşiktaş" => Some("besiktas")
    case "Trabzonspor" => Some("trabzonspor")
    case "Adana Demirspor" => Some("adanademirspor")
    case "Antalyaspor" => Some("antalyaspor")
    case "Başakşehir" => Some("basaksehir")
    case "Konyaspor" => Some("konyaspor")
    case "Kayserispor" => Some("kayserispor")
    case "Sivasspor" => Some("sivasspor")
    case "Kasımpaşa" => Some("kasimpasa")
    case "Samsunspor" => Some("samsunspor")
    case "Ankaragücü" => Some("ankaragucu")
    case "Hatayspor" => Some("hatayspor")
    case "Gaziantep FK" => Some("gaziantepfk")
    case "Gaziantep" => Some("gaziantepfk")
    case "Rizespor" => Some("caykurrize")
    case "Çaykur Rizespor" => Some("caykurrize")
    case "Eyüpspor" => Some("eyupspor")
    case "Bodrumspor" => Some("bodrumfk")
    case "Bodrum FK" => Some("bodrumfk")
    case "Göztepe" => Some("goztepe")
    case "Pendikspor" => Some("pendikspor")
    case "Bursaspor" => Some("bursaspor")
    case "Altay" => Some("altay")
    case "Eskişehirspor" => Some("eskisehirspor")
    case "Karagümrük" => Some("karagumruk")
    case "Alanyaspor" => Some("alanyaspor")
    case "İstanbulspor" => Some("istanbulspor")
    case "default" => Some("default-team")
    case _ => None
  }

  /** Alternative club names and the name each stands for. */
  function Normalizations(name: string): Option<string>
  {
    match name
    case "Galatasaray SK" => Some("Galatasaray")
    case "Fenerbahçe SK" => Some("Fenerbahçe")
    case "Beşiktaş JK" => Some("Beşiktaş")
    case "Trabzonspor AS" => Some("Trabzonspor")
    case "İstanbul Başakşehir" => Some("Başakşehir")
    case "Başakşehir FK" => Some("Başakşehir")
    case "Alanyaspor AS" => Some("Alanyaspor")
    case "Fatih Karagümrük" => Some("Karagümrük")
    case "Çaykur Rizespor" => Some("Çaykur Rizespor")
    case "Rizespor" => Some("Çaykur Rizespor")
    case "MKE Ankaragücü" => Some("Ankaragücü")
    case "Bodrum FK" => Some("Bodrum FK")
    case "Bodrumspor" => Some("Bodrum FK")
    case "Eyüpspor SK" => Some("Eyüpspor")
    case "Göztepe SK" => Some("Göztepe")
    case "Gaziantep FK" => Some("Gaziantep FK")
    case "Gaziantep" => Some("Gaziantep FK")
    case _ => None
  }

  /** The logo table with full paths, as the source writes it. */
  function LogoTable(name: string): Option<string>
  {
    match LogoFile(name)
    case Some(file) => Some(Logo(file))
    case None => None
  }

  /** A logo path: a PNG file under /logos/. */
  ghost predicate IsLogoPath(s: string)
  {
    exists file :: s == Logo(file)
  }

  /** `getTeamLogo`: the table's entry, falling back to the default when
      the name is not listed (or its entry is empty, which none is). */
  function TeamLogo(name: string): (r: string)
    ensures LogoTable(name).Some? ==> r == LogoTable(name).value
    ensures LogoTable(name).None? ==> r == DefaultLogo
  {
    match LogoTable(name)
    case Some(logo) => if logo != "" then logo else DefaultLogo
    case None => DefaultLogo
  }

  /** Whatever the name, the logo is a non-empty path to a PNG file under
      /logos/: every entry is one, so the fallback fires only for names
      the table lacks. */
  lemma TeamLogoIsLogoPath(name: string)
    ensures IsLogoPath(TeamLogo(name)) && TeamLogo(name) != ""
  {
    match LogoFile(name)
    case Some(file) => assert TeamLogo(name) == Logo(file);
    case None => assert TeamLogo(name) == Logo("default-team");
  }

  /** `normalizeTeamName`: the name an alternative stands for, or the name
      itself when it is not an alternative (or stands for the empty name,
      which none does). */
  function NormalizeTeamName(name: string): (r: string)
    ensures Normalizations(name).None? ==> r == name
    ensures Normalizations(name).Some? ==> r == Normalizations(name).value
  {
    match Normalizations(name)
    case Some(canonical) => if canonical != "" then canonical else name
    case None => name
  }

  /** Every name an alternative stands for is either not an alternative
      itself or stands for itself. */
  lemma TargetsFixed(name: string)
    ensures Normalizations(name).Some? ==>
      var t := Normalizations(name).value; Normalizations(t).None? || Normalizations(t) == Some(t)
  {
  }

  /** Normalising twice is normalising once. */
  lemma NormalizeIdempotent(name: string)
    ensures NormalizeTeamName(NormalizeTeamName(name)) == NormalizeTeamName(name)
  {
    TargetsFixed(name);
  }

  /** Every name an alternative stands for has its own logo file. */
  lemma TargetsHaveLogos(name: string)
    ensures Normalizations(name).Some? ==>
      var file := LogoFile(Normalizations(name).value); file.Some? && file.value != "default-team"
  {
  }

  /** Different files have different paths. */
  lemma LogoInjective(a: string, b: string)
    requires Logo(a) == Logo(b)
    ensures a == b
  {
    assert a == Logo(a)[|"/logos/"|..|Logo(a)| - |".png"|];
    assert b == Logo(b)[|"/logos/"|..|Logo(b)| - |".png"|];
  }

  /** Every alternative leads to a listed club with a logo other than the
      default. */
  lemma NormalizedAliasHasLogo(alias: string)
    requires Normalizations(alias).Some?
    ensures LogoTable(NormalizeTeamName(alias)).Some?
    ensures TeamLogo(NormalizeTeamName(alias)) != DefaultLogo
  {
    TargetsHaveLogos(alias);
    var file := LogoFile(NormalizeTeamName(alias)).value;
    if Logo(file) == DefaultLogo {
      LogoInjective(file, "default-team");
    }
  }

  /** The clubs listed under two names share one logo file, and the name
      normalisation keeps that logo. */
  lemma SharedGaziantep()
    ensures TeamLogo("Gaziantep") == TeamLogo("Gaziantep FK") == TeamLogo(NormalizeTeamName("Gaziantep"))
  {
  }
  lemma SharedRize()
    ensures TeamLogo("Rizespor") == TeamLogo("Çaykur Rizespor") == TeamLogo(NormalizeTeamName("Rizespor"))
  {
  }
  lemma SharedBodrum()
    ensures TeamLogo("Bodrumspor") == TeamLogo("Bodrum FK") == TeamLogo(NormalizeTeamName("Bodrumspor"))
  {
  }
}
