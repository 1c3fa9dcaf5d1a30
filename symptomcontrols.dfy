/** The sensation picker (src/components/screening/SymptomControls.jsx):
    each handler builds the next sensation record from the current one. */
module SymptomControls {
  import opened PainMapping

  /** The intensity slider runs from 0 to 10 in steps of 1. */
  const INTENSITY_MIN: int := 0
  const INTENSITY_MAX: int := 10
  const INTENSITY_STEP: int := 1

  predicate OnSlider(intensity: int) {
    INTENSITY_MIN <= intensity <= INTENSITY_MAX && (intensity - INTENSITY_MIN) % INTENSITY_STEP == 0
  }

  /** handleTypeChange: the type and its table colour change, the intensity stays. */
  function HandleTypeChange(current: Sensation, t: SensationType): (r: Sensation)
    ensures r.sensationType == t && ColorMatches(r)
    ensures r.intensity == current.intensity
  {
    current.(sensationType := t, color := SensationColor(t))
  }

  /** handleIntensityChange: the slider reports a one-element array whose
      element becomes the intensity; type and colour stay. */
  function HandleIntensityChange(current: Sensation, value: seq<int>): (r: Sensation)
    requires |value| >= 1
    ensures r.intensity == value[0]
    ensures r.sensationType == current.sensationType && r.color == current.color
  {
    current.(intensity := value[0])
  }

  /** The value the slider is given: the current intensity alone. */
  function SliderValue(s: Sensation): seq<int> {
    [s.intensity]
  }

  /** A colour that matches its type keeps matching after either change. */
  lemma ColorStaysMatched(s: Sensation, t: SensationType, value: seq<int>)
    requires ColorMatches(s) && |value| >= 1
    ensures ColorMatches(HandleTypeChange(s, t))
    ensures ColorMatches(HandleIntensityChange(s, value))
  {
  }

  /** Echoing the slider's own value changes nothing. */
  lemma SliderRoundTrip(s: Sensation)
    ensures HandleIntensityChange(s, SliderValue(s)) == s
  {
  }

  /** The initial sensation matches its colour and lies on the slider, and
      slider moves keep the intensity on it. */
  lemma InitialOnSlider(s: Sensation, value: seq<int>)
    requires OnSlider(s.intensity) && |value| >= 1 && OnSlider(value[0])
    ensures ColorMatches(INITIAL_SENSATION) && OnSlider(INITIAL_SENSATION.intensity)
    ensures OnSlider(HandleIntensityChange(s, value).intensity)
  {
  }
}
