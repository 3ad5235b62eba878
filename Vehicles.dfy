/*
 * The vehicles screen: the generated mock fleet, and the state of its two modals (the
 * vehicle's details and the maintenance-scheduling form with its month calendar).
 */
module Vehicles {
  import opened Js
  import opened Calendar

  datatype HistoryItem = HistoryItem(data: string, descricao: string, valor: string)

  /** A fleet vehicle; `km` and `custoManutencao` are the numbers before their pt-BR formatting. */
  datatype Vehicle = Vehicle(
    id: int, placa: string, modelo: string, motorista: string, status: string, ano: int,
    km: int, combustivel: int, capacidade: int,
    ultimaManutencao: string, proximaManutencao: string, custoManutencao: int,
    historico: seq<HistoryItem>)

  const Motoristas: seq<string> := ["Alex", "João", "Maria", "Pedro", "Carlos"]

  const Historico: seq<HistoryItem> := [
    HistoryItem("15/09/2025", "Troca de óleo", "450,00"),
    HistoryItem("10/08/2025", "Revisão completa", "1.200,00"),
    HistoryItem("22/07/2025", "Troca de pneus", "2.800,00")
  ]

  /** The generated status: every fourth vehicle is inactive. */
  function Status(i: nat): string {
    if i % 4 == 0 then "Inativo" else "Ativo"
  }

  /** The i-th generated vehicle, i in 0..11. */
  function MockVehicle(i: nat): Vehicle {
    Vehicle(
      i + 1,
      "XYZ-" + NatToString(1000 + i),
      if i % 3 == 0 then "Volvo VM" else if i % 3 == 1 then "Scania R450" else "Mercedes Actros",
      Motoristas[i % 5],
      Status(i),
      2020 + i % 5,
      50000 + i * 5000,
      75 - i * 5,
      15 + (i % 3) * 5,
      NatToString(10 + i % 20) + "/09/2025",
      NatToString(15 + i % 15) + "/11/2025",
      3500 + i * 250,
      Historico)
  }

  /** `Array.from({ length: 12 }, (_, i) => ...)` */
  function MockVehicles(): (vs: seq<Vehicle>)
    ensures |vs| == 12
    ensures forall i :: 0 <= i < 12 ==> vs[i] == MockVehicle(i)
  {
    seq(12, i requires 0 <= i => MockVehicle(i))
  }

  /** The plate's digits read back as 999 + id. */
  lemma PlateEncodesId(i: nat)
    ensures var v := MockVehicle(i);
      |v.placa| > 4 && v.placa[..4] == "XYZ-" && AllDigits(v.placa[4..]) && ParseNat(v.placa[4..]) == 999 + v.id
  {
    var v := MockVehicle(i);
    assert v.placa[4..] == NatToString(1000 + i);
    ParseNatToString(1000 + i);
  }

  /** The twelve vehicles have twelve different ids and twelve different plates. */
  lemma MockFleetDistinct(i: int, j: int)
    requires 0 <= i < j < 12
    ensures MockVehicles()[i].id != MockVehicles()[j].id
    ensures MockVehicles()[i].placa != MockVehicles()[j].placa
  {
    PlateEncodesId(i);
    PlateEncodesId(j);
  }

  /** Every fourth vehicle (ids 1, 5, 9) is inactive, the others active. */
  lemma StatusByIndex(i: nat)
    ensures Status(i) == "Inativo" <==> (i + 1) % 4 == 1
    ensures Status(i) == "Inativo" || Status(i) == "Ativo"
  {
    assert |"Inativo"| != |"Ativo"|;
  }

  /** The fleet's shape: ids 1..12, every fourth vehicle inactive, years 2020..2024, a known driver. */
  lemma MockFleetShape(i: int)
    requires 0 <= i < 12
    ensures var v := MockVehicles()[i];
      && v.id == i + 1
      && (v.status == "Inativo" <==> v.id % 4 == 1)
      && (v.status == "Inativo" || v.status == "Ativo")
      && 2020 <= v.ano <= 2024
      && v.motorista in Motoristas
      && |v.historico| == 3
  {
    assert MockVehicles()[i] == MockVehicle(i);
    StatusByIndex(i);
  }

  // ---------------------------------------------------------------------------
  // The scheduling form and the screen's state
  // ---------------------------------------------------------------------------

  datatype Agendamento = Agendamento(tipo: string, local: string, descricao: string, responsavel: string, prioridade: string)

  /** The empty form: every text blank, priority "media". */
  const EmptyAgendamento: Agendamento := Agendamento("", "", "", "", "media")

  datatype AgendamentoField = Tipo | Local | Descricao | Responsavel | Prioridade

  /** `{ ...agendamentoData, [field]: value }` */
  function WithField(a: Agendamento, f: AgendamentoField, value: string): (r: Agendamento)
    ensures f == Tipo ==> r == a.(tipo := value)
    ensures f != Tipo ==> r.tipo == a.tipo
    ensures f == Prioridade ==> r == a.(prioridade := value)
    ensures f != Prioridade ==> r.prioridade == a.prioridade
    ensures f == Local ==> r == a.(local := value)
    ensures f == Descricao ==> r == a.(descricao := value)
    ensures f == Responsavel ==> r == a.(responsavel := value)
  {
    match f
    case Tipo => a.(tipo := value)
    case Local => a.(local := value)
    case Descricao => a.(descricao := value)
    case Responsavel => a.(responsavel := value)
    case Prioridade => a.(prioridade := value)
  }

  /** Cell i is marked selected: a day of the month equal to the selected day number. */
  predicate IsSelectedCell(md: MonthData, selectedDate: Option<int>, i: int) {
    IsValidDay(md, i) && selectedDate == Some(DayNum(md, i))
  }

  /** A selected cell shows the selected day, and no two cells are selected at once. */
  lemma SelectedCellIsUnique(md: MonthData, selectedDate: Option<int>, i: int, j: int)
    requires IsSelectedCell(md, selectedDate, i) && IsSelectedCell(md, selectedDate, j)
    ensures i == j
    ensures 1 <= selectedDate.value <= md.daysInMonth
  {
    assert DayNum(md, i) == DayNum(md, j);
  }

  /** The alert shown after scheduling. */
  function SuccessMessage(placa: string): string {
    "Manutenção agendada com sucesso para " + placa + "!"
  }

  class VehiclesScreen {
    var selectedVehicle: Option<Vehicle>
    var showAgendamentoModal: bool
    var selectedDate: Option<int>
    var currentDate: Date
    var agendamentoData: Agendamento

    /** The calendar always shows a real date. */
    predicate Valid()
      reads this
    {
      ValidDate(currentDate)
    }

    /** The screen opens on today's month with nothing selected and the form empty. */
    constructor(today: Date)
      requires ValidDate(today)
      ensures Valid()
      ensures selectedVehicle == None && !showAgendamentoModal && selectedDate == None
      ensures currentDate == today && agendamentoData == EmptyAgendamento
    {
      selectedVehicle := None;
      showAgendamentoModal := false;
      selectedDate := None;
      currentDate := today;
      agendamentoData := EmptyAgendamento;
    }

    function Month(): MonthData
      requires Valid()
      reads this
    {
      GetMonthData(currentDate)
    }

    /** The details modal is up while a vehicle is selected and scheduling is not. */
    predicate ShowsDetails()
      reads this
    {
      selectedVehicle.Some? && !showAgendamentoModal
    }

    predicate ShowsAgendamento()
      reads this
    {
      showAgendamentoModal && selectedVehicle.Some?
    }

    method HandleViewVehicle(v: Vehicle)
      modifies this
      ensures selectedVehicle == Some(v)
      ensures showAgendamentoModal == old(showAgendamentoModal) && selectedDate == old(selectedDate)
      ensures currentDate == old(currentDate) && agendamentoData == old(agendamentoData)
    {
      selectedVehicle := Some(v);
    }

    method HandleCloseModal()
      modifies this
      ensures selectedVehicle == None
      ensures showAgendamentoModal == old(showAgendamentoModal) && selectedDate == old(selectedDate)
      ensures currentDate == old(currentDate) && agendamentoData == old(agendamentoData)
    {
      selectedVehicle := None;
    }

    method HandleAgendarManutencao()
      modifies this
      ensures showAgendamentoModal
      ensures selectedVehicle == old(selectedVehicle) && selectedDate == old(selectedDate)
      ensures currentDate == old(currentDate) && agendamentoData == old(agendamentoData)
    {
      showAgendamentoModal := true;
    }

    /** Closing the form: the modal, the chosen day and the form are reset, the calendar returns to today. */
    method HandleCloseAgendamento(today: Date)
      requires ValidDate(today)
      modifies this
      ensures Valid()
      ensures !showAgendamentoModal && selectedDate == None
      ensures currentDate == today && agendamentoData == EmptyAgendamento
      ensures selectedVehicle == old(selectedVehicle)
    {
      showAgendamentoModal := false;
      selectedDate := None;
      currentDate := today;
      agendamentoData := EmptyAgendamento;
    }

    /**
     * Submitting: the success alert names the vehicle's plate (reading it is why a vehicle must be
     * selected), then the form is closed and the vehicle deselected.
     */
    method HandleSubmitAgendamento(today: Date) returns (alertText: string)
      requires ValidDate(today)
      requires selectedVehicle.Some?
      modifies this
      ensures alertText == SuccessMessage(old(selectedVehicle).value.placa)
      ensures Valid()
      ensures !showAgendamentoModal && selectedVehicle == None && selectedDate == None
      ensures currentDate == today && agendamentoData == EmptyAgendamento
      ensures !ShowsDetails() && !ShowsAgendamento()
    {
      alertText := SuccessMessage(selectedVehicle.value.placa);
      HandleCloseAgendamento(today);
      selectedVehicle := None;
    }

    /** The ◄ / ► buttons, with the month change as intended (the day clamped to the target month). */
    method ChangeMonth(direction: int)
      requires Valid()
      modifies this
      ensures Valid()
      ensures currentDate == ChangeMonthClamped(old(currentDate), direction)
      ensures MonthIndex(currentDate) == MonthIndex(old(currentDate)) + direction
      ensures selectedVehicle == old(selectedVehicle) && showAgendamentoModal == old(showAgendamentoModal)
      ensures selectedDate == old(selectedDate) && agendamentoData == old(agendamentoData)
    {
      currentDate := ChangeMonthClamped(currentDate, direction);
    }

    /** A click on cell i: `isValidDay && setSelectedDate(dayNum)`. */
    method SelectCell(i: int)
      requires Valid()
      requires 0 <= i < GridCells
      modifies this
      ensures Valid()
      ensures IsValidDay(Month(), i) ==> selectedDate == Some(DayNum(Month(), i)) && IsSelectedCell(Month(), selectedDate, i)
      ensures !IsValidDay(Month(), i) ==> selectedDate == old(selectedDate)
      ensures currentDate == old(currentDate) && selectedVehicle == old(selectedVehicle)
      ensures showAgendamentoModal == old(showAgendamentoModal) && agendamentoData == old(agendamentoData)
    {
      var md := GetMonthData(currentDate);
      if IsValidDay(md, i) {
        selectedDate := Some(DayNum(md, i));
      }
    }

    /** A form input: that field and nothing else. */
    method SetAgendamentoField(f: AgendamentoField, value: string)
      modifies this
      ensures agendamentoData == WithField(old(agendamentoData), f, value)
      ensures selectedVehicle == old(selectedVehicle) && showAgendamentoModal == old(showAgendamentoModal)
      ensures selectedDate == old(selectedDate) && currentDate == old(currentDate)
    {
      agendamentoData := WithField(agendamentoData, f, value);
    }
  }
}
