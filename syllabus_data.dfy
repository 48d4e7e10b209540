// The syllabus table (services/syllabusData.ts): for the GATE and UGC-NET
// exams, the topic list of each engineering stream; the custom exam has none.

module SyllabusData {

  datatype StreamType = CSE | EEE | ECE | ME | CE | CH
  datatype ExamType = GATE | UGC_NET | CUSTOM

  /** The stream's name as the rest of the application writes it. */
  function StreamName(s: StreamType): string {
    match s
    case CSE => "CSE"
    case EEE => "EEE"
    case ECE => "ECE"
    case ME => "ME"
    case CE => "CE"
    case CH => "CH"
  }

  const GateCse: seq<string> := [
    "Engineering Mathematics Discrete Mathematics",
    "Digital Logic Boolean Algebra",
    "Computer Organization and Architecture",
    "Programming and Data Structures in C",
    "Algorithms Analysis and Design",
    "Theory of Computation Automata",
    "Compiler Design Lexical Analysis",
    "Operating Systems Process Management",
    "Databases SQL and Normalization",
    "Computer Networks TCP/IP",
    "General Aptitude Verbal Ability",
    "General Aptitude Numerical Ability"
  ]

  const GateEee: seq<string> := [
    "Electric Circuits Network Analysis",
    "Electromagnetic Fields Maxwell Equations",
    "Signals and Systems Laplace Transform",
    "Electrical Machines Transformers and Induction Motors",
    "Power Systems Stability and Protection",
    "Control Systems Bode Plot and Routh-Hurwitz",
    "Electrical and Electronic Measurements",
    "Analog Electronics Op-Amps",
    "Digital Electronics Logic Gates",
    "Power Electronics Thyristors and Choppers",
    "Engineering Mathematics Calculus"
  ]

  const GateEce: seq<string> := [
    "Network Theory KCL KVL",
    "Signals and Systems FFT and Z-Transform",
    "Control Systems State Space Analysis",
    "Analog Circuits Diodes and BJT",
    "Digital Circuits Combinational Logic",
    "Electromagnetics Transmission Lines",
    "Electronic Devices MOSFET and CMOS",
    "Communications Analog and Digital Modulation",
    "Engineering Mathematics Linear Algebra"
  ]

  const GateMe: seq<string> := [
    "Engineering Mechanics and Strength of Materials",
    "Theory of Machines and Vibrations",
    "Machine Design Gears and Bearings",
    "Fluid Mechanics and Hydraulic Machines",
    "Thermodynamics and Heat Transfer",
    "Manufacturing Engineering Casting and Welding",
    "Industrial Engineering PERT and CPM",
    "Engineering Mathematics Differential Equations",
    "General Aptitude Reasoning"
  ]

  const GateCe: seq<string> := [
    "Structural Engineering Strength of Materials",
    "Geotechnical Engineering Soil Mechanics",
    "Water Resources Engineering Fluid Mechanics",
    "Environmental Engineering Waste Water",
    "Transportation Engineering Highway Design",
    "Geomatics Engineering Surveying",
    "Construction Materials and Management",
    "Engineering Mathematics Probability"
  ]

  const GateCh: seq<string> := [
    "Process Calculations and Thermodynamics",
    "Fluid Mechanics and Mechanical Operations",
    "Heat Transfer Conductive and Convective",
    "Mass Transfer Distillation and Absorption",
    "Chemical Reaction Engineering Kinetics",
    "Instrumentation and Process Control",
    "Plant Design and Economics",
    "Chemical Technology Inorganic Chemicals"
  ]

  const NetCse: seq<string> := [
    "Discrete Structures and Optimization",
    "Computer System Architecture",
    "Programming Languages and Computer Graphics",
    "Database Management Systems",
    "System Software and Operating System",
    "Software Engineering",
    "Data Structures and Algorithms",
    "Theory of Computation and Compilers",
    "Data Communication and Computer Networks",
    "Artificial Intelligence"
  ]

  const NetEee: seq<string> := [
    "Electronic Transport in Semiconductor",
    "Logic Families and Logic Gates",
    "Network Analysis and Synthesis",
    "Control System Analysis",
    "Analog and Digital Communication",
    "Microprocessor and Microcontroller",
    "Power Electronics and Drives",
    "Material Science for Electronics"
  ]

  const NetEce: seq<string> := [
    "Semiconductor Devices and ICs",
    "Network Theory and Circuit Analysis",
    "Analog and Digital Electronics",
    "Electromagnetics and Microwaves",
    "Communication Systems",
    "Signals and Systems",
    "Control Systems",
    "Fiber Optic Communication"
  ]

  const NetMe: seq<string> := [
    "Thermodynamics and Heat Transfer",
    "Fluid Mechanics",
    "Materials Science",
    "Manufacturing Processes",
    "Industrial Engineering",
    "Machine Design",
    "Applied Mechanics"
  ]

  const NetCe: seq<string> := [
    "Structural Analysis",
    "Soil Mechanics",
    "Fluid Mechanics and Hydraulics",
    "Environmental Engineering",
    "Highway and Traffic Engineering",
    "Surveying and Geomatics"
  ]

  const NetCh: seq<string> := [
    "Chemical Engineering Thermodynamics",
    "Reaction Engineering",
    "Mass and Heat Transfer",
    "Fluid Particle Mechanics",
    "Process Control",
    "Chemical Process Industries"
  ]

  /** SYLLABUS_DB: the topic lists per exam and stream; the custom exam holds no entry. */
  function SyllabusDb(exam: ExamType): map<StreamType, seq<string>> {
    match exam
    case GATE => map[CSE := GateCse, EEE := GateEee, ECE := GateEce, ME := GateMe, CE := GateCe, CH := GateCh]
    case UGC_NET => map[CSE := NetCse, EEE := NetEee, ECE := NetEce, ME := NetMe, CE := NetCe, CH := NetCh]
    case CUSTOM => map[]
  }

  /** getExamTopics: nothing for the custom exam, otherwise the table entry, or nothing when it is missing. */
  function GetExamTopics(exam: ExamType, stream: StreamType): (topics: seq<string>)
    ensures exam == CUSTOM ==> topics == []
    ensures exam != CUSTOM && stream in SyllabusDb(exam) ==> topics == SyllabusDb(exam)[stream]
    ensures exam != CUSTOM && stream !in SyllabusDb(exam) ==> topics == []
  {
    if exam == CUSTOM then []
    else if stream in SyllabusDb(exam) then SyllabusDb(exam)[stream]
    else []
  }

  /** Both exams list topics for every stream, so a lookup for them is never empty. */
  lemma EveryStreamHasTopics(exam: ExamType, stream: StreamType)
    requires exam != CUSTOM
    ensures stream in SyllabusDb(exam)
    ensures GetExamTopics(exam, stream) != []
  {
  }

  /** The sizes of the table entries. */
  lemma TableSizes()
    ensures |GetExamTopics(GATE, CSE)| == 12 && |GetExamTopics(GATE, EEE)| == 11 && |GetExamTopics(GATE, ECE)| == 9
    ensures |GetExamTopics(GATE, ME)| == 9 && |GetExamTopics(GATE, CE)| == 8 && |GetExamTopics(GATE, CH)| == 8
    ensures |GetExamTopics(UGC_NET, CSE)| == 10 && |GetExamTopics(UGC_NET, EEE)| == 8 && |GetExamTopics(UGC_NET, ECE)| == 8
    ensures |GetExamTopics(UGC_NET, ME)| == 7 && |GetExamTopics(UGC_NET, CE)| == 6 && |GetExamTopics(UGC_NET, CH)| == 6
  {
  }
}
