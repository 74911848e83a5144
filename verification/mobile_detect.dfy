/**
 * The platform detector: an exported singleton that asks MobileDetect for
 * the operating-system alias of the user agent once, at construction, and
 * answers three equality questions about it ever after.
 */
module MobileDetect {
  import opened Wrappers

  const IosAlias := "iOS"
  const AndroidAlias := "AndroidOS"

  /** The three kinds of runtime the bridge tells apart. */
  datatype Platform = Ios | Android | Unsupported

  /**
   * The detector. `osAlias` is what MobileDetect's `os()` returned for the
   * user agent (`None` for its `null`); the user-agent parsing itself is not
   * part of this model, so the alias is an input.
   */
  datatype Detector = Detector(osAlias: Option<string>) {

    predicate IsIos() {
      osAlias == Some(IosAlias)
    }

    predicate IsAndroid() {
      osAlias == Some(AndroidAlias)
    }

    predicate IsMobilePhone() {
      IsAndroid() || IsIos()
    }

    /** The platform the alias names; every answer of the detector follows from it. */
    function Classify(): (p: Platform)
      ensures p == Ios <==> osAlias == Some(IosAlias)
      ensures p == Android <==> osAlias == Some(AndroidAlias)
      ensures p == Unsupported <==> !IsMobilePhone()
    {
      if IsIos() then Ios else if IsAndroid() then Android else Unsupported
    }
  }

  /** A phone is iOS or Android, never both. */
  lemma NeverBoth(d: Detector)
    ensures !(d.IsIos() && d.IsAndroid())
    ensures d.IsMobilePhone() <==> d.IsIos() || d.IsAndroid()
  {
  }

  /** Any alias other than the two known ones makes all three answers false. */
  lemma UnknownAliasAnswersNo(d: Detector)
    requires d.osAlias != Some(IosAlias) && d.osAlias != Some(AndroidAlias)
    ensures !d.IsIos() && !d.IsAndroid() && !d.IsMobilePhone()
  {
  }
}
