/**
 * The animals behind the test bindings: a sheep that can be sheared once and a wolf that
 * never changes. What the Rust code prints is returned here as the printed line.
 */
module Animals {
  const WoolyNoise := "baaaaah!"
  const NakedNoise := "baaaaah?"
  const WolfNoise := "rrrrrr!"

  /** `Sheep`: its `naked` flag is the only state that ever changes. */
  class Sheep {
    var naked: bool
    var name: string

    /** `Sheep::new`: a sheep starts with its wool. */
    constructor New(name: string)
      ensures !naked && this.name == name
    {
      naked := false;
      this.name := name;
    }

    /** `is_naked`. */
    function IsNaked(): bool
      reads this
    {
      naked
    }

    /** `name`. */
    function Name(): string
      reads this
    {
      name
    }

    /** `noise`: a naked sheep asks, a wooly one states. */
    function Noise(): (r: string)
      reads this
      ensures r == NakedNoise || r == WoolyNoise
      ensures r[|r| - 1] == '?' <==> IsNaked()
      ensures r[..|r| - 1] == "baaaaah"
    {
      if IsNaked() then NakedNoise else WoolyNoise
    }

    /**
     * `shear`: a wooly sheep gets a haircut and is naked afterwards; a naked one is left as it
     * is. The name never changes. The returned line is what is printed.
     */
    method Shear() returns (line: string)
      modifies this
      ensures naked && name == old(name)
      ensures old(naked) ==> line == name + " is already naked..."
      ensures !old(naked) ==> line == name + " gets a haircut!"
    {
      if IsNaked() {
        line := Name() + " is already naked...";
      } else {
        line := name + " gets a haircut!";
        naked := true;
      }
    }

    /** `talk`, as overridden for sheep: the printed line. */
    method Talk() returns (line: string)
      ensures line == Name() + " pauses briefly... " + Noise()
      ensures |line| == |name| + 19 + |Noise()|
      ensures line[..|name|] == Name() && line[|line| - |Noise()|..] == Noise()
    {
      line := name + " pauses briefly... " + Noise();
    }
  }

  /** Shearing twice: the second haircut finds the sheep already naked and changes nothing. */
  method ShearTwice(s: Sheep)
    modifies s
    ensures s.IsNaked() && s.Noise() == NakedNoise && s.Name() == old(s.Name())
  {
    var first := s.Shear();
    var second := s.Shear();
    assert second == s.name + " is already naked...";
  }

  /** `Wolf`: only a name, which nothing changes. */
  datatype Wolf = Wolf(name: string)

  /** `Wolf::name`. */
  function WolfName(w: Wolf): string
  {
    w.name
  }

  /** `Wolf::noise`: the same for every wolf. */
  function Noise(w: Wolf): string
  {
    WolfNoise
  }

  /** The default `talk`: `<name> says <noise>`. */
  function Talk(w: Wolf): (r: string)
    ensures |r| == |w.name| + 6 + |WolfNoise|
    ensures r[..|w.name|] == WolfName(w) && r[|r| - |WolfNoise|..] == WolfNoise
  {
    w.name + " says " + Noise(w)
  }

  /** A wolf keeps the name it was made with and always says `rrrrrr!`. */
  lemma WolfTalks(name: string)
    ensures WolfName(Wolf(name)) == name && Noise(Wolf(name)) == WolfNoise
    ensures Talk(Wolf(name)) == name + " says rrrrrr!"
  {
    assert " says " + WolfNoise == " says rrrrrr!";
  }

  /** A new sheep makes its wooly noise; sheared, it asks. */
  method SheepStory(name: string) returns (before: string, after: string)
    ensures before == WoolyNoise && after == NakedNoise
  {
    var dolly := new Sheep.New(name);
    before := dolly.Noise();
    var _ := dolly.Shear();
    after := dolly.Noise();
  }

  /** A new sheep talks with its wool; once sheared, it talks with a question. */
  method SheepTalks(name: string) returns (before: string, after: string)
    ensures before == name + " pauses briefly... baaaaah!"
    ensures after == name + " pauses briefly... baaaaah?"
  {
    var dolly := new Sheep.New(name);
    before := dolly.Talk();
    var _ := dolly.Shear();
    after := dolly.Talk();
    assert " pauses briefly... " + NakedNoise == " pauses briefly... baaaaah?";
    assert " pauses briefly... " + WoolyNoise == " pauses briefly... baaaaah!";
  }
}
