// The "coding" idle screen (components/CodingScreen.tsx): on mount it picks one of
// three code snippets and an interval types it out one character per tick, clearing
// itself once the whole snippet is shown.

module CodingScreen {
  import R = Random

  const CodeSnippets: seq<string> := [
    "function Gomoji() {\n  const [mood, setMood] = useState('happy');\n\n  return (\n    <div className={mood}>\n      {/* Eyes and mouth go here */}\n    </div>\n  );\n}",
    "const styles = {\n  container: {\n    backgroundColor: '#000',\n    display: 'flex',\n    alignItems: 'center',\n    justifyContent: 'center',\n  },\n  eye: {\n    width: '100px',\n    height: '100px',\n    backgroundColor: '#00ffff',\n    borderRadius: '50%',\n  }\n};",
    "<!-- My Cool Gomoji -->\n<div id=\"gomoji-container\">\n  <div class=\"eye left\"></div>\n  <div class=\"eye right\"></div>\n  <div class=\"mouth smile\"></div>\n</div>"
  ]

  /** One mounted coding screen. */
  class Typewriter {
    /** The snippet picked on mount (snippetRef). */
    const snippet: string
    /** How many characters have been typed (indexRef). */
    var index: nat
    /** What the screen shows (typedCode). */
    var typedCode: string
    /** Whether the typing interval is still registered (intervalRef). */
    var ticking: bool

    /** The screen always shows exactly the first `index` characters. */
    ghost predicate Valid()
      reads this
    {
      index <= |snippet| && typedCode == snippet[..index]
    }

    /** Mount: pick a snippet with the draw `r` and start the interval. */
    constructor (r: real)
      requires R.IsDraw(r)
      ensures Valid()
      ensures snippet == CodeSnippets[R.PickIndex(r, |CodeSnippets|)]
      ensures index == 0 && typedCode == "" && ticking
    {
      snippet := CodeSnippets[R.PickIndex(r, |CodeSnippets|)];
      index := 0;
      typedCode := "";
      ticking := true;
    }

    /** One firing of the interval: type the next character, or clear the interval
        when there is none left. */
    method Tick()
      requires Valid() && ticking
      modifies this
      ensures Valid()
      ensures old(index) < |snippet| ==>
        index == old(index) + 1 && typedCode == old(typedCode) + [snippet[old(index)]] && ticking
      ensures old(index) == |snippet| ==>
        index == old(index) && typedCode == old(typedCode) && !ticking
    {
      if index < |snippet| {
        typedCode := typedCode + [snippet[index]];
        index := index + 1;
      } else {
        ticking := false;
      }
    }

    /** Unmount: the cleanup clears the interval and leaves the text as it was. */
    method Unmount()
      modifies this
      ensures !ticking && index == old(index) && typedCode == old(typedCode)
    {
      ticking := false;
    }

    /** The interval left to run until it clears itself: it ends with the whole
        snippet typed and the interval gone. */
    method TypeOut()
      requires Valid() && ticking
      modifies this
      ensures Valid() && typedCode == snippet && !ticking
    {
      while ticking
        invariant Valid()
        invariant !ticking ==> index == |snippet|
        decreases |snippet| - index, ticking
      {
        Tick();
      }
      assert snippet[..|snippet|] == snippet;
    }
  }
}
