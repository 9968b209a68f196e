/**
 * The branding step: first a logo phase, where the user either uploads a
 * logo or picks one of three example icons (never both), then a colour
 * phase. Colour changes are forwarded to the demo.
 */
module BrandingStep {
  import opened Wrappers

  datatype Phase = LogoPhase | ColorPhase

  /** The colour used when the demo hands over no brand colour. */
  const DefaultColor := "#0091FF"

  /** The names of the three example icons offered in the logo phase. */
  function ExampleIcons(): seq<string>
  {
    ["Rocket", "Company", "Machine"]
  }

  /** JavaScript truthiness of a nullable string. */
  predicate Truthy(v: Option<string>)
  {
    v.Some? && v.value != ""
  }

  /** The store preview's logo slot: the uploaded logo wins over the icon. */
  datatype Preview = UploadedLogo(data: string) | Icon(name: string) | Placeholder

  class Branding {
    var selectedColor: string
    var selectedIcon: Option<string>
    var uploadedLogo: Option<string>
    var step: Phase

    /**
     * An uploaded logo and a selected icon are never set together, and the
     * colour phase is reached only once one of them is set.
     */
    ghost predicate Valid()
      reads this
    {
      && !(selectedIcon.Some? && uploadedLogo.Some?)
      && (step == ColorPhase ==> Truthy(uploadedLogo) || Truthy(selectedIcon))
    }

    /** The step starts in the logo phase with `brandColor || "#0091FF"`. */
    constructor (brandColor: string)
      ensures Valid()
      ensures selectedColor == (if brandColor == "" then DefaultColor else brandColor)
      ensures selectedIcon == None && uploadedLogo == None && step == LogoPhase
    {
      selectedColor := if brandColor == "" then DefaultColor else brandColor;
      selectedIcon, uploadedLogo, step := None, None, LogoPhase;
    }

    /**
     * The file reader delivered `data`, a data URL (never empty): it becomes
     * the logo and the icon is cleared.
     */
    method LogoLoaded(data: string)
      requires Valid() && data != ""
      modifies this
      ensures Valid()
      ensures uploadedLogo == Some(data) && selectedIcon == None
      ensures selectedColor == old(selectedColor) && step == old(step)
    {
      uploadedLogo := Some(data);
      selectedIcon := None;
    }

    /** Clicking an example icon selects it and clears the uploaded logo. */
    method PickIcon(name: string)
      requires Valid() && name in ExampleIcons()
      modifies this
      ensures Valid()
      ensures selectedIcon == Some(name) && uploadedLogo == None
      ensures selectedColor == old(selectedColor) && step == old(step)
    {
      selectedIcon := Some(name);
      uploadedLogo := None;
    }

    /** `handleColorChange`: stores the colour unvalidated; `forwarded` goes to `onBrandColorChange`. */
    method ChangeColor(color: string) returns (forwarded: string)
      requires Valid()
      modifies this
      ensures Valid()
      ensures selectedColor == color && forwarded == color
      ensures selectedIcon == old(selectedIcon) && uploadedLogo == old(uploadedLogo) && step == old(step)
    {
      selectedColor := color;
      forwarded := color;
    }

    /** Continue in the logo phase is shown only once a logo or an icon is set. */
    function ContinueVisible(): (r: bool)
      reads this
      ensures r <==> step == LogoPhase && (Truthy(uploadedLogo) || Truthy(selectedIcon))
    {
      step == LogoPhase && (Truthy(uploadedLogo) || Truthy(selectedIcon))
    }

    function PreviewLogo(): (p: Preview)
      reads this
      requires Valid()
      ensures p.UploadedLogo? ==> uploadedLogo == Some(p.data)
      ensures p.Icon? ==> selectedIcon == Some(p.name) && uploadedLogo == None
      ensures p == Placeholder <==> !Truthy(uploadedLogo) && !Truthy(selectedIcon)
    {
      if Truthy(uploadedLogo) then UploadedLogo(uploadedLogo.value)
      else if Truthy(selectedIcon) then Icon(selectedIcon.value)
      else Placeholder
    }

    /** Continue, rendered only while `ContinueVisible()`: to the colour phase. */
    method ToColorPhase()
      requires Valid() && ContinueVisible()
      modifies this
      ensures Valid() && step == ColorPhase
      ensures selectedColor == old(selectedColor) && selectedIcon == old(selectedIcon)
      ensures uploadedLogo == old(uploadedLogo)
    {
      step := ColorPhase;
    }

    /** Back: to the logo phase, keeping the choice made there. */
    method ToLogoPhase()
      requires Valid()
      modifies this
      ensures Valid() && step == LogoPhase
      ensures selectedColor == old(selectedColor) && selectedIcon == old(selectedIcon)
      ensures uploadedLogo == old(uploadedLogo)
    {
      step := LogoPhase;
    }
  }
}
