/** The governor list and its case-insensitive name lookup (__find_governor). */
module GovernorNames {
  import opened CpufreqTypes

  /** The upper-case letters of the kernel's ctype table: ASCII 'A' to 'Z'
      and the Latin-1 letters 192 to 214 and 216 to 222. A character of a
      name stands for one byte. */
  predicate IsUpper(ch: char) {
    'A' <= ch <= 'Z' || 192 <= ch as int <= 214 || 216 <= ch as int <= 222
  }

  /** tolower: an upper-case letter moves 32 code points down the table to
      its lower-case letter; any other byte is kept. */
  function Lower(ch: char): (r: char)
    ensures IsUpper(ch) ==> r as int == ch as int + 32
    ensures 'A' <= ch <= 'Z' ==> 'a' <= r <= 'z'
    ensures !IsUpper(ch) ==> r == ch
    ensures !IsUpper(r)
  {
    if IsUpper(ch) then (ch as int + 32) as char else ch
  }

  /** The first NAME_LEN characters of `s`, lower-cased: what strnicmp compares. */
  function Folded(s: string): (r: string)
    ensures |r| <= NAME_LEN
    ensures |r| == if |s| < NAME_LEN then |s| else NAME_LEN
    ensures forall i :: 0 <= i < |r| ==> r[i] == Lower(s[i])
  {
    var n := if |s| < NAME_LEN then |s| else NAME_LEN;
    seq(n, i requires 0 <= i < n => Lower(s[i]))
  }

  /** strnicmp(a, b, CPUFREQ_NAME_LEN) == 0. */
  predicate NameEq(a: string, b: string) {
    Folded(a) == Folded(b)
  }

  /** No two registered governors share a name up to case. */
  predicate UniqueNames(govs: seq<Governor>) {
    forall i, j :: 0 <= i < j < |govs| ==> !NameEq(govs[i].name, govs[j].name)
  }

  /** __find_governor: the first governor in list order whose name matches. */
  function Find(govs: seq<Governor>, name: string): (r: Option<Governor>)
    ensures r.None? <==> (forall i :: 0 <= i < |govs| ==> !NameEq(name, govs[i].name))
    ensures r.Some? ==> exists i :: 0 <= i < |govs| && govs[i] == r.value && NameEq(name, govs[i].name)
                                    && forall k :: 0 <= k < i ==> !NameEq(name, govs[k].name)
  {
    if |govs| == 0 then None
    else if NameEq(name, govs[0].name) then Some(govs[0])
    else
      var r := Find(govs[1..], name);
      assert forall i :: 1 <= i < |govs| ==> govs[i] == govs[1..][i - 1];
      r
  }

  /** A registered governor is found again by its own name. */
  lemma {:induction false} FindRegistered(govs: seq<Governor>, g: Governor)
    requires UniqueNames(govs)
    requires g in govs
    ensures Find(govs, g.name) == Some(g)
  {
    if govs[0] != g {
      assert g in govs[1..];
      var k :| 0 <= k < |govs| && govs[k] == g;
      assert !NameEq(govs[0].name, g.name);
      assert UniqueNames(govs[1..]) by {
        forall i, j | 0 <= i < j < |govs[1..]|
          ensures !NameEq(govs[1..][i].name, govs[1..][j].name)
        {
          assert govs[1..][i] == govs[i + 1] && govs[1..][j] == govs[j + 1];
        }
      }
      FindRegistered(govs[1..], g);
    }
  }

  /** list_del: the list without `g`. */
  function Without(govs: seq<Governor>, g: Governor): (r: seq<Governor>)
    ensures forall x :: x in r <==> x in govs && x != g
    ensures |r| <= |govs|
  {
    if |govs| == 0 then []
    else if govs[0] == g then Without(govs[1..], g)
    else [govs[0]] + Without(govs[1..], g)
  }

  /** Removing a governor keeps the names unique. */
  lemma {:induction false} WithoutUnique(govs: seq<Governor>, g: Governor)
    requires UniqueNames(govs)
    ensures UniqueNames(Without(govs, g))
  {
    if |govs| > 0 {
      assert UniqueNames(govs[1..]) by {
        forall i, j | 0 <= i < j < |govs[1..]|
          ensures !NameEq(govs[1..][i].name, govs[1..][j].name)
        {
          assert govs[1..][i] == govs[i + 1] && govs[1..][j] == govs[j + 1];
        }
      }
      WithoutUnique(govs[1..], g);
      if govs[0] != g {
        var rest := Without(govs[1..], g);
        var r := [govs[0]] + rest;
        forall i, j | 0 <= i < j < |r| ensures !NameEq(r[i].name, r[j].name) {
          if i == 0 {
            assert r[j] in rest;
            assert r[j] in govs[1..];
            var k :| 0 <= k < |govs[1..]| && govs[1..][k] == r[j];
            assert govs[k + 1] == r[j];
          } else {
            assert r[i] == rest[i - 1] && r[j] == rest[j - 1];
          }
        }
      }
    }
  }
}
