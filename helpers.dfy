/** Role predicates and the identifier generators. The random draw and the current
    year, which the source reads from `Math.random` and `Date`, are parameters. */
module Helpers {
  import opened Wrappers
  import opened Text
  import opened Types

  /** Who may open the admin panel. */
  function CanViewAdminPanel(role: UserRole): (r: bool)
    ensures r <==> role != Support && role != Customer
  {
    role == SuperAdmin || role == Admin
  }

  /** Who may invite users. */
  function CanInvite(role: UserRole): (r: bool)
    ensures r <==> role != Support && role != Customer
  {
    role == SuperAdmin || role == Admin
  }

  /** Inviting and viewing the admin panel are granted to exactly the same roles. */
  lemma CanInviteIsCanViewAdminPanel(role: UserRole)
    ensures CanInvite(role) == CanViewAdminPanel(role)
  {
  }

  /** `{prefix}-{year}-{counter}` for a counter of exactly `k` digits: where each
      part sits, and that both numbers read back as decimal digit strings. */
  lemma {:induction false} IdLayout(prefix: string, year: nat, counter: nat, k: nat)
    requires 1 <= k && Pow10(k - 1) <= counter < Pow10(k)
    ensures var r := prefix + "-" + NatToString(year) + "-" + NatToString(counter);
      && |r| == |prefix| + k + 2 + |NatToString(year)|
      && r[..|prefix|] == prefix && r[|prefix|] == '-' && r[|r| - k - 1] == '-'
      && IsDigitsOfLength(r[|r| - k..], k) && DigitsValue(r[|r| - k..], false) == counter
      && AllDigits(r[|prefix| + 1..|r| - k - 1])
      && DigitsValue(r[|prefix| + 1..|r| - k - 1], false) == year
  {
    var y, c := NatToString(year), NatToString(counter);
    NatToStringWidth(counter, k);
    DecimalValueOfNatToString(year);
    DecimalValueOfNatToString(counter);
    var r := prefix + "-" + y + "-" + c;
    assert r[|r| - k..] == c;
    assert r[|prefix| + 1..|r| - k - 1] == y;
    assert r[..|prefix|] == prefix;
  }

  /** `USR-{year}-{counter}` where `counter = draw + 100` and `draw` is
      `Math.floor(Math.random() * 900)`. */
  function GenerateUserId(year: nat, draw: nat): string
    requires draw < 900
  {
    "USR" + "-" + NatToString(year) + "-" + NatToString(draw + 100)
  }

  /** A user id is `USR-`, the year and a three-digit counter in 100..999: the
      counter always has three digits, and the year and the counter read back from
      their places. */
  lemma UserIdLayout(year: nat, draw: nat)
    requires draw < 900
    ensures var r := GenerateUserId(year, draw);
      && |r| == 8 + |NatToString(year)| && r[..4] == "USR-" && r[|r| - 4] == '-'
      && IsDigitsOfLength(r[|r| - 3..], 3) && DigitsValue(r[|r| - 3..], false) == draw + 100
      && AllDigits(r[4..|r| - 4]) && DigitsValue(r[4..|r| - 4], false) == year
  {
    assert Pow10(2) == 100 && Pow10(3) == 1000;
    IdLayout("USR", year, draw + 100, 3);
  }

  /** `{prefix}-{year}-{counter}` where `counter = draw + 1000` and `draw` is
      `Math.floor(Math.random() * 9000)`. */
  function GenerateServiceId(prefix: string, year: nat, draw: nat): string
    requires draw < 9000
  {
    prefix + "-" + NatToString(year) + "-" + NatToString(draw + 1000)
  }

  /** A service id is the prefix, a dash, the year, a dash and a counter in
      1000..9999: the counter always has four digits, and the year and the counter
      read back from their places. */
  lemma ServiceIdLayout(prefix: string, year: nat, draw: nat)
    requires draw < 9000
    ensures var r := GenerateServiceId(prefix, year, draw);
      && |r| == |prefix| + 6 + |NatToString(year)|
      && r[..|prefix|] == prefix && r[|prefix|] == '-' && r[|r| - 5] == '-'
      && IsDigitsOfLength(r[|r| - 4..], 4) && DigitsValue(r[|r| - 4..], false) == draw + 1000
      && AllDigits(r[|prefix| + 1..|r| - 5]) && DigitsValue(r[|prefix| + 1..|r| - 5], false) == year
  {
    assert Pow10(3) == 1000 && Pow10(4) == 10000;
    IdLayout(prefix, year, draw + 1000, 4);
  }
}
